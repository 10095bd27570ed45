# ihale-mcp in Dafny

A verified model of the data-mapping core of ihale-mcp. ihale-mcp is an MCP server for EKAP v2, the Turkish public procurement portal. The model covers:

- **Client helpers** (`ihale_client.py`). Dates are rewritten from `YYYY-MM-DD` to the portal's `DD.MM.YYYY`. Announcement HTML becomes a plain-text preview.
- **Request builders and response normalisers** of the five client operations:
  - tender search (`GetListByParameters`);
  - OKAS classification search;
  - authority (DETSIS) search;
  - tender announcements;
  - tender details.
- **Tool-layer policy** (`ihale_mcp.py`):
  - clamping of `limit` and `days`;
  - the `today` / `from_today` date shortcuts;
  - translation of licence-plate numbers (1-81) into portal province ids (245-325);
  - the `search_params` echo;
  - reshaping of client results in `get_recent_tenders`, `get_tender_announcements` and `get_tender_details`.
- **Constant tables** (`ihale_models.py`). The plate table is proved to be a bijection onto the province table, and each plate reaches the province named beside it.

The HTTP call is not modelled. Each operation takes the upstream outcome as an input, an `Upstream<T>` value, which is one of three cases:

- `Received(body)`: the body is the decoded JSON as a record with `Option` fields;
- `HttpStatus(status, detail)`;
- `RequestFailure(detail)`.

Each operation returns what the Python code returns: the request payload it would send, and either the formatted result or the error record. Loops that build lists with `append` are methods with loop invariants, and each is proved against a specification function. Expression-only code is written as functions.

Modules, one concept each:

- `Wrappers`: `Option`.
- `Decimal`: decimal rendering and parsing of integers, used for `str(id)`, URLs and table codes.
- `Text`: `str.replace` and substring tests.
- `DateFormat`: `strptime("%Y-%m-%d")`, `strftime("%d.%m.%Y")`, and day arithmetic for `timedelta`.
- `Preview`: the tag-stripping scanner and whitespace normalisation.
- `Models`: the constant tables.
- `ClientCommon`: upstream outcomes, error records, the list-formatting loop, clamping and DevExtreme `loadOptions`.
- `TenderSearch`, `OkasSearch`, `AuthoritySearch`, `Announcements`, `TenderDetails`: the five client operations.
- `Tools`: the MCP tool layer.

## Model

| member | source | states |
|---|---|---|
| DateFormat.ParseIsoDate | ihale_client.py:70 | `strptime(s, "%Y-%m-%d")`: succeeds only on a calendar-valid date, and every success is a valid date |
| DateFormat.MonthField | ihale_client.py:70 | the `%m` field of `strptime`: `1[0-2]`, `0[1-9]` or `[1-9]`, read as a month in 1..12 |
| DateFormat.DayField | ihale_client.py:70 | the `%d` field of `strptime`: `3[01]`, `[12][0-9]`, `0[1-9]`, `[1-9]` or a space and `[1-9]`, read as a day in 1..31 |
| DateFormat.RenderApiDate | ihale_client.py:71 | `strftime("%d.%m.%Y")`: ten characters, dots at positions 2 and 5 |
| DateFormat.RenderIsoDate | ihale_mcp.py:263-264 | `strftime("%Y-%m-%d")`: ten characters, dashes at positions 4 and 7 |
| DateFormat.FormatDateForApi | ihale_client.py:65-73 | the result is `None` exactly when the input is missing, empty or not a valid `%Y-%m-%d` date; otherwise it reads back as the same calendar day |
| DateFormat.IsoDateRoundTrip | ihale_client.py:70 | a valid date written as `YYYY-MM-DD` parses back to itself |
| DateFormat.ApiDateRoundTrip | ihale_client.py:71 | a valid date written as `DD.MM.YYYY` reads back to itself |
| DateFormat.FormatsValidDate | ihale_client.py:65-73 | the ISO text of any valid date is rewritten to the zero-padded `DD.MM.YYYY` text of the same date |
| DateFormat.DropsCalendarInvalidDate | ihale_client.py:69-73 | a well-formed date whose day does not exist in its month, such as 2023-02-29, gives `None` and does not raise |
| DateFormat.ExampleValid | ihale_client.py:65-73 | `"2025-01-05"` becomes `"05.01.2025"` |
| DateFormat.ExampleMalformed | ihale_client.py:65-73 | text already in `DD.MM.YYYY` form gives `None` |
| DateFormat.DaysInMonth | ihale_client.py:70 | month lengths are 28-31, and February has 29 days exactly in Gregorian leap years |
| DateFormat.PreviousDay | ihale_mcp.py:261 | the day before a valid date is a valid date whose day number is one less |
| DateFormat.DaysBefore | ihale_mcp.py:261 | `date - timedelta(days=n)` is a valid date exactly `n` day numbers earlier |
| DateFormat.DaysBeforeIsEarlier | ihale_mcp.py:260-264 | going back one or more days gives a different date and a different ISO string |
| DateFormat.DaysBeforeExamples | ihale_mcp.py:261 | 1 January 2025 minus one day is 31 December 2024; 1 March 2024 minus one day is 29 February 2024 |
| Preview.TagEnd | ihale_client.py:534 | a tag `<[^>]+>` starting at `<` ends at the first `>` after it, provided at least one character lies between them; `<>` is not a tag |
| Preview.StripTags | ihale_client.py:534 | the single left-to-right pass of `re.sub(r'<[^>]+>', '', html)` never lengthens the text |
| Preview.StripTagsChars | ihale_client.py:534 | tag removal introduces no new characters |
| Preview.StripTagsLeavesNoTags | ihale_client.py:534 | no tag is left after one pass |
| Preview.StripTagsFixesNoTags | ihale_client.py:534 | text without tags is unchanged |
| Preview.StripTagsIdempotent | ihale_client.py:534 | stripping twice is stripping once |
| Preview.StripTagsWithoutAngle | ihale_client.py:534 | text without `<` is unchanged |
| Preview.StripTagsExamples | ihale_client.py:534 | `"a<>b"` is kept as is; in `"<<>x"` the tag `<<>` may contain `<` and is removed |
| Preview.TrimStart | ihale_client.py:537 | `lstrip`: removes a prefix and leaves no leading whitespace |
| Preview.TrimEnd | ihale_client.py:537 | `rstrip`: removes a suffix and leaves no trailing whitespace |
| Preview.Strip | ihale_client.py:537 | `strip()`: `rstrip` after `lstrip` (definition; its properties are stated by `Preview.CleanTextNormalized`) |
| Preview.Collapse | ihale_client.py:537 | `re.sub(r'\s+', ' ', s)`: each maximal whitespace run becomes one plain space (definition; stated by `Preview.CollapseShape`) |
| Preview.CleanText | ihale_client.py:534-537 | tag removal, whitespace collapsing and stripping, in the source's order (definition; stated by `Preview.CleanTextNormalized`, `Preview.CleanTextKeepsContent` and `Preview.CleanTextFixpoint`) |
| Preview.CollapseShape | ihale_client.py:537 | after `re.sub(r'\s+', ' ', ...)`, every whitespace character is a plain space and no two are adjacent |
| Preview.CleanTextNormalized | ihale_client.py:534-537 | the cleaned text has no leading or trailing whitespace, no whitespace run and no whitespace other than single spaces |
| Preview.CleanTextKeepsContent | ihale_client.py:534-537 | cleaning keeps every non-whitespace character of the tag-stripped text, in order |
| Preview.CleanTextFixpoint | ihale_client.py:534-537 | normalised text without tags is its own cleaned form |
| Preview.PyPrefix | ihale_client.py:541 | Python's `s[:n]`, negative `n` included: its length, and that it is a prefix |
| Preview.ExtractTextPreview | ihale_client.py:526-543 | for a non-negative `max_length`, the preview is at most `max_length` + 3 long |
| Preview.DefaultPreview | ihale_client.py:506 | the previews attached to announcements are at most 203 characters |
| Preview.PreviewCases | ihale_client.py:528-543 | empty HTML gives `""`; a cleaned text that fits is returned unchanged; a longer one becomes its first `max_length` characters followed by `"..."` |
| Preview.TruncatedPreviewShape | ihale_client.py:537-541 | a truncated preview is a body followed by `"..."`; the body starts with no whitespace, has no whitespace run and holds only plain spaces |
| Preview.NegativeLengthExample | ihale_client.py:540-541 | a negative `max_length` follows Python slicing: for any four letters that are neither whitespace nor `<`, `"ab cd"` with -1 keeps all but the last character and gives `"ab c..."` |
| Preview.TrailingSpaceExample | ihale_client.py:540-541 | truncation can leave a space before `"..."`: for any such four letters, `"ab cd"` with 3 gives `"ab ..."` |
| Text.ReplaceCharRemoves | ihale_client.py:575 | `replace("_", " ")` leaves no `_` |
| Text.ReplaceAbsent | ihale_client.py:575 | replacing a pattern that does not occur changes nothing |
| Text.ContainsChar | ihale_client.py:574 | a one-character substring test is character membership |
| Text.NoCharNoPattern | ihale_client.py:574-575 | a text that lacks one of the pattern's characters does not contain the pattern |
| Text.ReplaceCharIsMap | ihale_client.py:575 | `replace("_", " ")` keeps the length and rewrites position by position: each `_` becomes a space and every other character stays |
| Text.ReplaceLeadingOnly | ihale_client.py:575 | replacing a pattern that stands only at the front of the text replaces that one occurrence and keeps the rest |
| Text.ReplaceAll | ihale_client.py:575 | `str.replace`: occurrences found left to right, not overlapping, the inserted text not searched again (definition; stated by the `Text.Replace*` lemmas) |
| Models.PlateDomain | ihale_models.py:104-186 | `PLATE_TO_API_ID` is defined exactly on the plates 1..81 |
| Models.PlateToApiId | ihale_models.py:104-186 | `PLATE_TO_API_ID.get(plate)`: one arm per dictionary entry, `None` otherwise (definition; stated by the `Models.Plate*` lemmas) |
| Models.ProvinceDomain | ihale_models.py:190-272 | `PROVINCES` has exactly the keys 245..325 |
| Models.Provinces | ihale_models.py:190-272 | `PROVINCES.get(id)`: one arm per dictionary entry, `None` otherwise (definition; stated by `Models.ProvinceDomain`) |
| Models.DocumentedPlateName | ihale_models.py:104-186 | the province named in the comment beside each plate entry (definition; used by `Models.PlateRoundTrip`) |
| Models.PlateRange | ihale_models.py:102-104 | every portal id of a plate lies in 245..325 and is a key of `PROVINCES` |
| Models.PlateInjective | ihale_models.py:104-186 | no two plates share a portal id |
| Models.PlateOfApiIdInverts | ihale_models.py:104-186 | every province key is the portal id of some plate in 1..81 |
| Models.PlateSurjective | ihale_models.py:104-272 | every province has a plate |
| Models.PlateBijection | ihale_models.py:104-272 | the image of the plate table is exactly the province key set, and the table is injective |
| Models.PlateRoundTrip | ihale_models.py:104-272 | every plate reaches the province named beside it in the plate table, including 6→ANKARA, 34→İSTANBUL and 35→İZMİR |
| Models.TableCodes | ihale_models.py:80-93 | tender type ids are 1..4 and status ids 1..5, each with a code that is its id in decimal; proposal types are keyed 1..3 and announcement types 1..6 |
| Decimal.IntRoundTrip | ihale_client.py:553 | `str(i)` can be read back to `i` |
| Decimal.IntToString | ihale_client.py:553 | `str(i)`: non-empty, and starts with `-` exactly for a negative number |
| Decimal.NatToStringInjective | ihale_client.py:553 | different ids give different strings |
| ClientCommon.StatusErrorText | ihale_client.py:232-236 | the status error text starts with `API request failed with status ` |
| ClientCommon.StatusErrorTextReadsBack | ihale_client.py:232-236 | the status code can be read back out of the error text |
| ClientCommon.FailureRecord | ihale_client.py:232-241 | an HTTP status error and any other failure both become `{"error", "message"}` records; the message is `str(e)`, and the error text is non-empty |
| ClientCommon.MapSeq | ihale_client.py:202-224 | the `for ... append` loops produce one formatted record per upstream record, in order |
| ClientCommon.DistinctValues | ihale_client.py:693 | `set(f(x) for x in xs)` holds every value `f` takes on the list, and nothing else |
| ClientCommon.DistinctValuesSize | ihale_client.py:693 | there are at most as many distinct values as elements, and none exactly for an empty list |
| ClientCommon.ClampToRange | ihale_client.py:252-255 | the clamped value lies in the range; an in-range value is unchanged; a value above the range gives the upper bound and one below gives the lower bound |
| ClientCommon.BuildLoadOptions | ihale_client.py:252-291 | `take` is the limit clamped into 1..500, and the filter list is sent as given |
| TenderSearch.BuildSearchPayload | ihale_client.py:133-191 | every omitted list filter is sent as `[]`, the others verbatim; tri-state filters and search switches pass through, `None` included; the four dates go through `_format_date_for_api`; `skip` and `limit` become the pagination fields |
| TenderSearch.DefaultPayloadFiltersNothing | ihale_client.py:133-191 | with all arguments at their defaults, no list filter, tri-state filter or date is sent |
| TenderSearch.PayloadDatesKeepTheDay | ihale_client.py:149-152 | a date that reaches the payload names the same calendar day the caller gave |
| TenderSearch.EkapUrl | ihale_client.py:222 | the portal link exists exactly when the tender id is truthy, and it starts with the portal prefix |
| TenderSearch.EkapUrlRoundTrip | ihale_client.py:222 | the tender id can be read back out of its link |
| TenderSearch.EkapUrlInjective | ihale_client.py:222 | distinct tenders get distinct links |
| TenderSearch.FormatTender | ihale_client.py:202-224 | the dictionary for one tender: the upstream fields copied, `document_count` defaulting to 0, `has_announcement` to `False`, and `ekap_url` from `EkapUrl` (definition; used by `TenderSearch.SearchTenders`) |
| TenderSearch.NoSearchParamsKey | ihale_client.py:226-241 | no result of the client tender search has a `search_params` key |
| TenderSearch.SearchTenders | ihale_client.py:193-241 | the payload is `BuildSearchPayload`; a received body gives one formatted tender per listed tender, in order, with `returned_count` equal to their number, `total_count` defaulting to 0, and `ekap_url` absent exactly for a falsy id; a failure gives the matching error record |
| OkasSearch.OkasFilters | ihale_client.py:274-288 | the filter is empty exactly for an empty term; otherwise it is `[kalemAdi contains t] "or" [kalemAdiEng contains t]`, with no `kalemTuru` clause |
| OkasSearch.ItemTypeLabelMatchesLegend | ihale_client.py:303-307 | an item type has a known label exactly for codes 1, 2 and 3, and that label is the legend's entry for the code; every other code gives `"Unknown"` |
| OkasSearch.ItemTypeLabelsDistinct | ihale_client.py:303-307 | the three labels differ |
| OkasSearch.ItemTypeLabel | ihale_client.py:303-307 | the `kalemTuru` legend `.get` with `"Unknown"` as default (definition; stated by `OkasSearch.ItemTypeLabelMatchesLegend`) |
| OkasSearch.FormatOkas | ihale_client.py:313-326 | the dictionary for one OKAS code: the upstream fields copied, `has_items` defaulting to `False`, `child_count` to 0, and the item-type label (definition) |
| OkasSearch.Keeps | ihale_client.py:310-311 | an item is kept when no type is requested or its `kalemTuru` equals the requested one (definition) |
| OkasSearch.FilteredCodes | ihale_client.py:302-326 | the formatted codes of the kept items, in upstream order; never longer than the input |
| OkasSearch.FilteredCodesAppend | ihale_client.py:302-326 | filtering distributes over concatenation, so upstream order is kept |
| OkasSearch.FilteredCodesHaveType | ihale_client.py:310-311 | when an item type is requested, every kept code has it |
| OkasSearch.FilteredCodesWithoutType | ihale_client.py:310-326 | without an item type, every item is kept and formatted in place |
| OkasSearch.FilteredCodesComplete | ihale_client.py:310-326 | every item of the requested type appears among the results |
| OkasSearch.SelectOkasCodes | ihale_client.py:301-330 | the result is the first `min(limit, number kept)` of the filtered codes, with filtering before truncation |
| OkasSearch.FilterBeforeTruncation | ihale_client.py:310-330 | with limit 1, a matching code behind a non-matching one is still returned |
| OkasSearch.SearchOkasCodes | ihale_client.py:243-356 | the payload carries the filter and the limit clamped into 1..500; the result is the first `limit` filtered codes in order; `total_found` is their number; the echo holds the clamped limit; the legend is attached; failures give error records |
| AuthoritySearch.AuthorityFilters | ihale_client.py:388-395 | the filter is empty exactly for an empty term; otherwise it is one `ad contains t` clause |
| AuthoritySearch.FormatAuthority | ihale_client.py:410-419 | the dictionary for one authority: the upstream fields copied, `has_children` defaulting to `False` and `child_count` always 0 (definition; the 0 is stated by `AuthoritySearch.SearchAuthorities`) |
| AuthoritySearch.SearchAuthorities | ihale_client.py:358-439 | the payload carries the filter and the clamped `take`; the result has one authority per record, in order, each with child count 0, and `total_found` equal to their number; failures give records with the authority-search fallback text |
| Announcements.AnnouncementTypeLabel | ihale_client.py:466-476 | a code in the six-entry map gets its label; any other code gets `"Type " + code` |
| Announcements.KnownLabelsAreNotFallbacks | ihale_client.py:466-476 | no known label starts with `"Type "` |
| Announcements.AnnouncementTypeLabelInjective | ihale_client.py:466-476 | different codes get different labels |
| Announcements.MarkdownOf | ihale_client.py:480-490 | empty HTML is not converted and gives `None`; other HTML gives whatever the converter returns |
| Announcements.TypeOf | ihale_client.py:475-476 | the `type` entry: the code with a missing `ilanTip` read as `""`, and its label (definition) |
| Announcements.FormatAnnouncement | ihale_client.py:475-507 | the dictionary for one announcement: the type, the upstream fields copied, the HTML with `""` as default, its markdown and its preview (definition; stated by `Announcements.GetTenderAnnouncements`) |
| Announcements.GetTenderAnnouncements | ihale_client.py:441-524 | the payload names the tender; the result has one formatted announcement per upstream one, in order, with `total_count` equal to their number and the requested id; every preview is at most 203 characters and every label agrees with its code; failures give error records |
| TenderDetails.UnmarkCharacteristic | ihale_client.py:575 | after removing `TENDER_DETAIL.` and replacing `_`, no `_` and no marker remains; for `TENDER_DETAIL.` followed by marker-free text `t`, the result is `t` with each `_` turned into a space and everything else kept, and marker-free text only has its `_`s spaced |
| TenderDetails.UnmarkedText | ihale_client.py:575 | removing the marker from `TENDER_DETAIL.` plus marker-free text leaves exactly that text, and leaves marker-free text as it is |
| TenderDetails.CleanCharacteristic | ihale_client.py:572-576 | a text without the marker is kept as is; a marked text is unmarked and then title-cased |
| TenderDetails.CleanCharacteristicStable | ihale_client.py:574-575 | an unmarked text is unchanged |
| TenderDetails.UnmarkExample | ihale_client.py:574-575 | `TENDER_DETAIL.E_IHALE` becomes `E IHALE` before title-casing |
| TenderDetails.CleanRawCharacteristic | ihale_client.py:572-576 | one characteristic: `ihaleOzellik` with `""` as default, then cleaned (definition) |
| TenderDetails.FormatOkasRef | ihale_client.py:583-588 | the `code`, `name` and `full_description` of one OKAS reference (definition) |
| TenderDetails.FormatAuthorityInfo | ihale_client.py:591-604 | the authority dictionary, with province and district read through their sub-dictionaries (definition) |
| TenderDetails.FormatRules | ihale_client.py:607-617 | the eight process rules, each defaulting to `False` (definition) |
| TenderDetails.FormatDetailAnnouncement | ihale_client.py:635-663 | one announcement of the detail record: the type, copied fields, HTML, markdown and preview (definition) |
| TenderDetails.DetailLabel | ihale_client.py:693 | the label collected into `types_available` (definition) |
| TenderDetails.FormatBasicInfo | ihale_client.py:674-685 | the `basic_info` dictionary, with `is_electronic` and `is_partial` defaulting to `False` (definition) |
| TenderDetails.FormatFlags | ihale_client.py:695-701 | the five flags, each defaulting to `False` (definition) |
| TenderDetails.IsCancelled | ihale_client.py:706 | `iptalTarihi` is present and a non-empty string, the truthiness test of the source (definition; stated by `TenderDetails.GetTenderDetails`) |
| TenderDetails.GetTenderDetails | ihale_client.py:545-723 | the id is sent as a decimal string that reads back to the id; a missing or empty `item` gives the "not found" record; otherwise characteristics, OKAS codes and announcements are formatted one for one and in order, the summary count and label set agree with the announcements, and `cancellation_info` is present exactly when `iptalTarihi` is truthy, copying its three fields verbatim; failures give error records |
| Tools.PlateImage | ihale_mcp.py:118-124 | the translated ids are never more than the plates given |
| Tools.PlateImageAppend | ihale_mcp.py:121-124 | translation distributes over concatenation, so it keeps the order of the plates |
| Tools.PlateImageMembers | ihale_mcp.py:121-124 | an id is in the translation exactly when some given plate maps to it |
| Tools.PlateImageOfValid | ihale_mcp.py:121-124 | when every plate is valid, each one is translated in place |
| Tools.PlateImageEmpty | ihale_mcp.py:121-127 | nothing is translated exactly when no given number is a plate number |
| Tools.TranslatedProvinces | ihale_mcp.py:117-127 | the result is `None` exactly when no plates are given or none is valid; otherwise it is the non-empty, order-preserving image |
| Tools.TranslatedProvincesAreProvinces | ihale_mcp.py:117-127 | every translated id is a province id in 245..325 and names the province of a plate that was given |
| Tools.TranslatedProvincesInRange | ihale_mcp.py:117-127 | the province list sent to the portal holds province ids only |
| Tools.TranslatePlates | ihale_mcp.py:117-127 | the loop keeping the truthy `PLATE_TO_API_ID.get` results computes `TranslatedProvinces` |
| Tools.PrepareSearch | ihale_mcp.py:100-127 | `limit` is clamped into 1..100; `"today"` sets both announcement dates to today, and `"from_today"` sets tender start to today and end to `None`, otherwise the dates pass through; provinces are translated; nothing else changes |
| Tools.SearchTendersTool | ihale_mcp.py:100-200 | the payload is the one for the caller's query with only the limit clamped, the shortcut dates set and the provinces translated, so all other arguments pass through; the portal receives `paginationTake` in 1..100, today's date as `DD.MM.YYYY` for each shortcut, and province ids only; the client's result comes back with `search_params` echoing the search text, IKN, tender types and the dates as used; the echo is always added, because no client result has the key |
| Tools.RecentQueryAsWritten | ihale_mcp.py:267-275 | the query `get_recent_tenders` builds passes the caller's limit through unchanged |
| Tools.RecentLimitEscapesRange | ihale_mcp.py:243-275 | limits of 1000 and 0 reach the portal unchanged, outside the documented 1-100 |
| Tools.RecentQuery | ihale_mcp.py:243-275 | the corrected query clamps the limit into 1..100 and equals the query as written when the limit is already in range |
| Tools.RecentQueryIsDefaultSearch | ihale_mcp.py:267-275 | the recent search is a default search apart from its tender types, announcement dates and limit |
| Tools.RecentWindow | ihale_mcp.py:254-264 | `days` is clamped into 1..30 and the start date lies exactly that many days before today; both ends, written as `YYYY-MM-DD`, are accepted by the date reformatting and reach the portal as `DD.MM.YYYY` |
| Tools.GetRecentTenders | ihale_mcp.py:243-292 | `days` is clamped into 1..30; the window starts exactly that many days before today; both ends reach the portal as `DD.MM.YYYY`; `days_back` is the clamped value; the caller's `limit` is sent as `paginationTake` and echoed in `filters_applied` unchanged; the tenders are the client's, in order; an error is passed through unchanged |
| Tools.GetRecentTendersCorrected | ihale_mcp.py:243-292 | the same tool with the limit clamped first: the query is the corrected one, `paginationTake` lies in 1..100 and equals the limit when it is already in range, and `filters_applied` echoes the clamped limit; the window, `days_back`, the tenders in order and `total_count` are those of `Tools.GetRecentTenders` |
| Tools.AnnouncementsTool | ihale_mcp.py:306-319 | an error is passed through unchanged; otherwise the announcements and count are the client's, the id is the requested one, and `announcement_types_found` is exactly the set of labels that occur, no larger than the number of announcements |
| Tools.AnnouncementLabel | ihale_mcp.py:318 | the label collected into `announcement_types_found` (definition) |
| Tools.DetailsTool | ihale_mcp.py:334-352 | an error, "not found" included, is passed through unchanged; otherwise the details themselves, plus a summary read from them whose counts are the lengths of the lists they count |
| Tools.GetTenderDetailsTool | ihale_mcp.py:323-352 | over the client call: a missing item gives the not-found record and a failed request its failure record, both passed through; otherwise the summary carries the upstream name, IKN, status text, authority name, location and e-tender flag, and its three counts equal the numbers of upstream characteristics, OKAS entries and announcements |

## Left out

- HTTP transport is not modelled (`_make_request`, httpx, headers, timeouts and the relaxed SSL context). The upstream outcome is an input.
- The JSON body is a typed record. A key that is absent and a key whose value is `null` are both `None`. The model therefore does not capture `.get(k, default)` returning `null` when the key is present with value `null`.
- Each pass-through field gets one fixed value type (int, string or bool) instead of arbitrary JSON.
- A body that does not fit the assumed shape, such as a `list` that is not a list, makes Python raise inside the `try` and reach the generic `except`. The model represents that case by a `RequestFailure` input.
- A non-string `ilanTip` is not captured. For a number such as 2, Python takes the fallback label `"Type 2"` and returns the announcement normally.
- The MarkItDown conversion is a parameter `string -> Option<string>`. Its warning `print` is not modelled.
- `str.title()` is a parameter. It depends on Unicode case rules.
- `datetime.now()` is a parameter: the `today` date. `get_recent_tenders` requires a year after 1, because `timedelta` would overflow before year 1.
- `strptime` is modelled for ASCII digits only. Unpadded months and days and space-padded days are accepted, as `strptime` accepts them; `%m` has no space-padded form. Years are 1..9999 and are written back with four digits, as `%Y` does on common platforms.
- Constant keys are not represented: `filterType`, the always-empty lists in the tender payload, and the seven empty DevExtreme lists.
- FastMCP registration, `main()` and the pydantic classes (`ihale_models.py` classes `TenderType` and others) are framework glue. `TenderTypes`, `TenderStatuses` and `TenderMethods` are plain sequences in the model.
- The `search_okas_codes` and `search_authorities` tools (`ihale_mcp.py:203-240`) return the client's result unchanged. `OkasSearch.SearchOkasCodes` and `AuthoritySearch.SearchAuthorities` are the whole model of them.
- The model does not claim that the client's announcement labels agree with `ANNOUNCEMENT_TYPES`. The two tables order codes 3 and 4 differently.
- The tools test `result.get("error")`, and the model reads that test as "the client failed". Every error record the client can return has a non-empty error text (the `FailureRecord` contract and the not-found text).
- Tools.SearchTendersTool: the tool-layer `search_params` test runs against a client result that never has the key. The branch that keeps an existing value is therefore unreachable in the model.
- Preview.ExtractTextPreview: the body before `"..."` may end with a space, as `Preview.TrailingSpaceExample` shows. Only the untruncated text is shown to have no trailing whitespace.

## Findings

| source | as written | input that shows it | evidently intended | confidence | as-written member | corrected member |
|---|---|---|---|---|---|---|
| ihale_mcp.py:247, 267-275, 290 | `get_recent_tenders` documents `limit` as "(1-100)" but passes it to the client unclamped and echoes it unclamped, unlike `search_tenders`, which clamps at ihale_mcp.py:101-104 | `limit=1000` sends `paginationTake: 1000`; `limit=0` sends 0 | clamp into 1..100 before the search | medium, not executed | Tools.RecentLimitEscapesRange | Tools.RecentQuery |

`Tools.GetRecentTenders` models the tool as written and sends and echoes the caller's limit unchanged. `Tools.GetRecentTendersCorrected` runs the same tool on the limit clamped into 1..100, which gives the corrected query `Tools.RecentQuery`.
