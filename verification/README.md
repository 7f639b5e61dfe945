# Robinhood Analytics MCP server, modelled in Dafny

This project models the request and formatting core of the Robinhood
Analytics MCP server. The server answers tool calls from an AI assistant by
querying an analytics API gateway and rendering the JSON it gets back as
plain text. The model covers:

- **the HTTP client** (`Api`): base-URL normalisation, the query string built
  from optional filters, the key headers, the error for a non-2xx status and
  the five endpoint paths;
- **the ten tool handlers**: what each reads from its arguments, what it asks
  the API for, the explanatory text it gives when there are no rows, and the
  listing it writes otherwise, with its row cap and "more rows" notice;
- **the dispatcher** (`Server`): the tool list, the mapping from a tool name
  to one of the five wired handlers, the unknown-tool result, and the
  conversion of a thrown error into an error result.

JavaScript values are the datatype `Js.Json`. The model writes out the parts
of JavaScript semantics that the handlers' behaviour depends on:

- the four presence tests: truthiness, "not null or undefined" (the test
  behind `??`), `!== undefined`, and "not undefined, null or empty";
- `||` and `??`;
- reading a property off `null` or `undefined`, which throws a `TypeError`;
- `Object.entries`, iteration, and `slice`;
- `String(x)`.

A handler's completion is a `Result`: it returns a value or throws
`Thrown(name, message)`.

The network is a parameter. `Api.Reply` is what came back for the request
(`fetch` rejected, or a status with a body and its JSON parse). A wired
handler returns the request it sent together with its outcome.

Four of the handlers are not wired into the dispatcher: pricing, Google Ads,
title analysis and search terms. Neither is scraping stats. All five call
client methods that `src/api-client.ts` does not define. They are modelled
from the completion of that call. They record the arguments handed to it as
a `DataCall`.

Every handler that works step by step is a method. Each is proved equal to a
specification function (`Respond`, `Listing`, `FieldBlocks`, ...). The
properties the code promises are lemmas about those functions.

## Model

| member | source | states |
|---|---|---|
| Js.PresenceTestsNest | src/tools/get-scraping-stats.ts:20-28 | truthy implies not blank; not blank implies not nullish; not nullish implies defined |
| Js.PresenceTestsDiffer | src/tools/get-scraping-stats.ts:20-28 | the four presence tests differ: `[]`/`{}` are truthy, `0` and `false` are present but falsy, `""` is not nullish but blank, `null` is defined but nullish |
| Js.NatToString | src/tools/get-rankings.ts:102 | the rendered count is a non-empty run of decimal digits with no leading zero |
| Js.ParseNatToString | src/tools/get-rankings.ts:102 | reading the rendered digits back gives the number |
| Js.NatToStringInjective | src/tools/get-rankings.ts:102 | distinct counts are rendered differently |
| Js.Take | src/tools/get-rankings.ts:104 | `slice(0, n)` is a prefix of the rows whose length is the smaller of n and the row count |
| Js.ElementsMatchLength | src/tools/get-rankings.ts:87-104 | for an array or string, `length` is the number of elements iterated, so the emptiness test and the loop agree |
| Api.StripTrailingSlashes | src/api-client.ts:17 | the base URL no longer ends with '/', is a prefix of the input, and only '/' was removed |
| Api.StripTrailingSlashesUnique | src/api-client.ts:17 | stripping `t + u` gives `t` whenever `t` does not end with '/' and `u` is all '/' |
| Api.StripTrailingSlashesIdempotent | src/api-client.ts:17 | normalising a normalised base URL changes nothing |
| Api.QueryIsFilter | src/api-client.ts:24-30 | for params with distinct keys, the `searchParams.set` loop yields the present entries in order as text |
| Api.QueryParams | src/api-client.ts:24-30 | a pair is in the query iff its key has a value that is not undefined, null or "", and the pair's text is that value's `String` |
| Api.Receive | src/api-client.ts:40-45 | a rejected fetch passes its error on; a non-2xx status throws `Error("API error <status>: <body>")`; a 2xx status gives the parsed body |
| Api.ApiErrorIdentifies | src/api-client.ts:42 | the API error message determines the status and the body |
| Api.RobinhoodApiClient.constructor | src/api-client.ts:16-19 | keeps the key, and the base URL stripped of trailing slashes |
| Api.RobinhoodApiClient.Request | src/api-client.ts:21-46 | URL is base + path; headers are the key and `Accept: application/json`; no params gives no query, otherwise the query the loop builds; the result is `Receive(reply)` |
| Api.RobinhoodApiClient.ListAccounts | src/api-client.ts:50-52 | requests `/v1/accounts` with no query |
| Api.RobinhoodApiClient.ListProjects | src/api-client.ts:54-56 | requests `/v1/accounts/<prefix>/projects` with no query |
| Api.RobinhoodApiClient.GetMarketShare | src/api-client.ts:60-69 | requests `/v1/accounts/<prefix>/projects/<n>/market-share` with the given params |
| Api.RobinhoodApiClient.GetMarketOverview | src/api-client.ts:71-80 | requests `.../market-overview` with the given params |
| Api.RobinhoodApiClient.GetRankings | src/api-client.ts:82-91 | requests `.../rankings` with the given params |
| Render.PrefixArg | src/tools/get-market-share.ts:55 | the prefix is truthy, and it is the argument or "acc1_" |
| Render.ProjectArg | src/tools/get-market-share.ts:56 | the project is truthy, and it is the argument or 1 |
| Render.DefaultsFollowOr | src/tools/get-rankings.ts:72-73 | a truthy argument is used; a falsy one gives the default, so "" gives "acc1_" and 0 gives 1 |
| Render.ArgParams | src/tools/get-market-share.ts:58-62 | the params record has one entry per key, in order, holding that argument's value |
| Render.ArgQuery | src/tools/get-rankings.ts:75-81 | a filter reaches the query iff it is one of the record's keys and its argument is not undefined, null or "" |
| Render.ProbeOrder | src/tools/get-pricing.ts:62 | rows come from the first field when it is truthy, else the second, else `[]`; an empty first array is kept, which hides the second |
| Render.FieldLinesSingle | src/tools/get-rankings.ts:105-108 | one entry prints "  key: value" exactly when it is not skipped and its value is not undefined, null or "" |
| Render.FieldLinesAppend | src/tools/get-rankings.ts:105-109 | the lines of concatenated entries are the concatenated lines |
| Render.FieldLinesDropUnprinted | src/tools/get-market-overview.ts:93-98 | removing an unprinted entry leaves the text unchanged |
| Render.WriteFieldLines | src/tools/get-market-overview.ts:93-98 | the loop with `continue` writes exactly the field lines |
| Render.FieldBlocksDefined | src/tools/get-pricing.ts:79-86 | rows that are not null or undefined always render, with at least one character per row |
| Render.WriteFieldBlocks | src/tools/get-pricing.ts:79-86 | the nested loop writes each row's field lines and a blank line, in order, or throws at the first null row |
| Render.WriteFieldListing | src/tools/get-title-analysis.ts:57-64 | slices to the cap, or throws "results.slice is not a function" for a value that is not an array or string |
| Render.FieldListingCapped | src/tools/get-title-analysis.ts:57-64 | the listing is the blocks of all rows up to the cap, else of the first `cap` rows |
| Render.FilterPairsEmpty | src/tools/get-market-share.ts:83-86 | no pairs survive iff no filter value is truthy; a surviving pair is never empty |
| Render.FilterDescAbsent | src/tools/get-market-share.ts:82-89 | the description is empty, so no "Filters:" line is written, iff no applied filter is truthy |
| MarketShare.Outcome | src/tools/get-market-share.ts:64-97 | the handler never sets the error flag, and passes a request error on unchanged |
| MarketShare.HandleGetMarketShare | src/tools/get-market-share.ts:51-98 | the handler method sends and answers exactly as `Respond` |
| MarketShare.WriteResult | src/tools/get-market-share.ts:66-97 | once the body has arrived, the handler's result is the no-data text, the formatted table or the error of writing it |
| MarketShare.WritePopulated | src/tools/get-market-share.ts:81-97 | with rows the text is the intro followed by the table, or the table's error |
| MarketShare.WriteIntro | src/tools/get-market-share.ts:82-90 | the intro is the heading, the filter line only when some filter is truthy, and the total |
| MarketShare.FormatMarketShareData | src/tools/get-market-share.ts:100-131 | the function writes "No data." for an empty list and the listing otherwise, as `Table` specifies |
| MarketShare.WriteListing | src/tools/get-market-share.ts:103-130 | the first 50 rows' blocks, then the notice of the rest, as `Listing` specifies |
| MarketShare.WriteRows | src/tools/get-market-share.ts:107-124 | the loop over the displayed rows yields every row's block in order, or the first row's read error |
| MarketShare.WriteRow | src/tools/get-market-share.ts:107-124 | a row block is its header line, its metric lines and a blank line |
| MarketShare.WriteHeader | src/tools/get-market-share.ts:108-112 | the header is the bold source (or Unknown), then the truthy q, device and location, each after a bar separator |
| MarketShare.WriteMetrics | src/tools/get-market-share.ts:114-122 | each metric line is written exactly when its field is defined, the date line when the date is truthy |
| MarketShare.MarketShareRequest | src/tools/get-market-share.ts:55-64 | URL `/v1/accounts/<prefix>/projects/<n>/market-share` with key headers; the query holds exactly the present source, q and device |
| MarketShare.MarketShareNoRows | src/tools/get-market-share.ts:66-79 | missing, falsy or empty rows give the no-data text and no error flag |
| MarketShare.MarketShareNoRowsText | src/tools/get-market-share.ts:66-79 | the exact no-data text for each of the four cases: the opening, the project, the quoted search term exactly when q is truthy, the quoted source exactly when source is truthy, in that order, and the closing sentence |
| MarketShare.RowBlocksDefined | src/tools/get-market-share.ts:107-124 | rows that are not null or undefined always render |
| MarketShare.MarketShareTable | src/tools/get-market-share.ts:100-101 | "No data." exactly for an empty list; any other list is listed |
| MarketShare.MarketShareListing | src/tools/get-market-share.ts:103-130 | all blocks for ≤50 rows, else the first 50 blocks and "... and <n-50> more rows (showing first 50)." |
| MarketShare.MarketShareCapped | src/tools/get-market-share.ts:104-128 | rows beyond the 50th do not affect the table beyond the count |
| MarketShare.RowHeaderSource | src/tools/get-market-share.ts:108-112 | a header starts with the bold source, or "**Unknown**" for a falsy source |
| MarketShare.MetricsLines | src/tools/get-market-share.ts:114-122 | the metrics are the text followed by five independent pieces: each of the four metric lines exactly when its field is not undefined (0 and null print), then the date line exactly when the date is truthy |
| MarketShare.MetricsPresence | src/tools/get-market-share.ts:114-122 | with all five fields absent nothing is added; a defined market share puts its line right after the header |
| MarketOverview.Outcome | src/tools/get-market-overview.ts:56-108 | never sets the error flag; passes a request error on unchanged |
| MarketOverview.HandleGetMarketOverview | src/tools/get-market-overview.ts:44-109 | the handler method sends and answers exactly as `Respond` |
| MarketOverview.WriteListing | src/tools/get-market-overview.ts:84-104 | slices to 60 rows, writes them, and adds the remaining-rows notice past 60 |
| MarketOverview.WriteResult | src/tools/get-market-overview.ts:58-108 | once the body has arrived, the handler's result is the no-data text, the formatted listing or the error of reading it |
| MarketOverview.WritePopulated | src/tools/get-market-overview.ts:72-108 | with rows the text is the intro followed by the listing, or the listing's error |
| MarketOverview.WriteIntro | src/tools/get-market-overview.ts:73-81 | the intro is the heading, the filter line only when some filter is truthy, and the total |
| MarketOverview.WriteRows | src/tools/get-market-overview.ts:85-99 | the loop writes each row's header, its non-excluded fields and a blank line |
| MarketOverview.MarketOverviewRequest | src/tools/get-market-overview.ts:48-56 | URL `.../market-overview`; the query holds exactly the present q and device |
| MarketOverview.MarketOverviewNoRows | src/tools/get-market-overview.ts:58-70 | missing, falsy or empty rows give the no-data text and no error flag |
| MarketOverview.MarketOverviewNoRowsText | src/tools/get-market-overview.ts:58-70 | the no-data text is exactly the opening, the project and the closing sentence, with the quoted search term between them exactly when q is truthy |
| MarketOverview.RowBlocksDefined | src/tools/get-market-overview.ts:85-100 | rows that are not null or undefined always render |
| MarketOverview.MarketOverviewListing | src/tools/get-market-overview.ts:84-104 | all blocks for ≤60 rows, else the first 60 blocks and "... and <n-60> more rows." |
| MarketOverview.MarketOverviewCapped | src/tools/get-market-overview.ts:84-104 | rows beyond the 60th do not affect the listing beyond the count |
| MarketOverview.HeaderPartsOrder | src/tools/get-market-overview.ts:86-90 | the header has one part per truthy date, q and device, in that order and with that decoration |
| MarketOverview.ExcludedKeysNotPrinted | src/tools/get-market-overview.ts:93-98 | date, q, device and location fields never print as field lines |
| Rankings.Outcome | src/tools/get-rankings.ts:85-119 | never sets the error flag; passes a request error on unchanged |
| Rankings.HandleGetRankings | src/tools/get-rankings.ts:68-120 | the handler method sends and answers exactly as `Respond` |
| Rankings.WriteResult | src/tools/get-rankings.ts:87-119 | once the body has arrived, the handler's result is the no-data text, the listing or the error of writing it |
| Rankings.WriteListing | src/tools/get-rankings.ts:104-115 | the loops write the first 50 rows and the remaining-rows notice past 50 |
| Rankings.ParamsDistinct | src/tools/get-rankings.ts:75-83 | the params record has seven distinct keys |
| Rankings.RankingsQuery | src/tools/get-rankings.ts:75-83 | a filter reaches the query iff present; `limit` reaches it iff not nullish and its `toString()` is not "" |
| Rankings.RankingsLimit | src/tools/get-rankings.ts:82 | a numeric limit is sent as its decimal text |
| Rankings.RankingsRequest | src/tools/get-rankings.ts:72-85 | URL `.../rankings` with the query the params record builds |
| Rankings.RankingsNoRows | src/tools/get-rankings.ts:87-99 | no rows give "No ranking data found for project <n>. " and the message, or the under-development fallback |
| Rankings.RankingsEmptyResultsKept | src/tools/get-rankings.ts:87-88 | an empty `results` array gives the no-data text even when `data` has rows |
| Rankings.RankingsListing | src/tools/get-rankings.ts:101-115 | heading, full count, first 50 rows, and the notice exactly past 50 |
| Rankings.RankingsCapped | src/tools/get-rankings.ts:104-115 | rows beyond the 50th do not affect the listing beyond the count |
| Pricing.Outcome | src/tools/get-pricing.ts:60-90 | never sets the error flag; passes the client error on unchanged |
| Pricing.HandleGetPricing | src/tools/get-pricing.ts:47-91 | the handler method calls and answers exactly as `Respond` |
| Pricing.PricingCall | src/tools/get-pricing.ts:51-60 | the client gets the prefix, project and a record of exactly search_term, company and device |
| Pricing.PricingNoRows | src/tools/get-pricing.ts:62-74 | no rows give "No pricing data found for project <n>. " and the message or the fallback |
| Pricing.PricingListing | src/tools/get-pricing.ts:76-86 | heading, full count and the first 50 rows, with no notice of left-out rows |
| Pricing.PricingRowsSource | src/tools/get-pricing.ts:62-63 | rows from `pricing_data` when truthy, else `data`; an empty `pricing_data` gives the no-data text |
| GoogleAds.Outcome | src/tools/get-google-ads.ts:48-80 | never sets the error flag; passes the client error on unchanged |
| GoogleAds.HandleGetGoogleAds | src/tools/get-google-ads.ts:37-81 | the handler method calls and answers exactly as `Respond` |
| GoogleAds.GoogleAdsCall | src/tools/get-google-ads.ts:41-48 | the client gets the prefix, project and a record of exactly search_term |
| GoogleAds.GoogleAdsNoRows | src/tools/get-google-ads.ts:50-64 | no rows: `google_ads_available === false` gives the not-set-up text; otherwise the message or the fallback |
| GoogleAds.GoogleAdsListing | src/tools/get-google-ads.ts:66-76 | heading, "Products:" count and the first 50 rows, with no notice |
| GoogleAds.GoogleAdsRowsSource | src/tools/get-google-ads.ts:50-51 | rows from `products` when truthy, else `data`; an empty `products` gives the no-data text |
| TitleAnalysis.Outcome | src/tools/get-title-analysis.ts:38-68 | never sets the error flag; passes the client error on unchanged |
| TitleAnalysis.HandleGetTitleAnalysis | src/tools/get-title-analysis.ts:31-69 | the handler method calls and answers exactly as `Respond` |
| TitleAnalysis.TitleAnalysisCall | src/tools/get-title-analysis.ts:35-38 | the client gets the prefix and project and no params |
| TitleAnalysis.TitleAnalysisNoRows | src/tools/get-title-analysis.ts:40-52 | no rows give the no-data text with the message or the fallback |
| TitleAnalysis.TitleAnalysisListing | src/tools/get-title-analysis.ts:54-64 | heading, "Titles analyzed:" count and the first 30 rows, with no notice |
| TitleAnalysis.TitleAnalysisRowsSource | src/tools/get-title-analysis.ts:40-41 | rows from `title_analysis` when truthy, else `data`; an empty `title_analysis` gives the no-data text |
| SearchTerms.Outcome | src/tools/get-search-terms.ts:37-71 | never sets the error flag; passes the client error on unchanged |
| SearchTerms.HandleGetSearchTerms | src/tools/get-search-terms.ts:30-72 | the handler method calls and answers exactly as `Respond` |
| SearchTerms.WriteTerms | src/tools/get-search-terms.ts:56-67 | the loop writes each term's block in order |
| SearchTerms.SearchTermsCall | src/tools/get-search-terms.ts:34-37 | the client gets the prefix and project and no params |
| SearchTerms.SearchTermsNoRows | src/tools/get-search-terms.ts:39-51 | no rows give the no-data text with the message or the fallback |
| SearchTerms.TermShapes | src/tools/get-search-terms.ts:57-66 | a string term is a bullet line; an object term is its field lines and a blank line |
| SearchTerms.TermBlocksDefined | src/tools/get-search-terms.ts:56-67 | terms that are not null or undefined always render, at least one character each |
| SearchTerms.SearchTermsListing | src/tools/get-search-terms.ts:53-67 | heading, "Total keywords:" count and the first 50 terms, with no notice |
| SearchTerms.SearchTermsRowsSource | src/tools/get-search-terms.ts:39-40 | terms from `search_terms` when truthy, else `data`; an empty `search_terms` gives the no-data text |
| ListProjects.Outcome | src/tools/list-projects.ts:31-62 | never sets the error flag; passes a request error on unchanged |
| ListProjects.HandleListProjects | src/tools/list-projects.ts:26-63 | the handler method sends and answers exactly as `Respond` |
| ListProjects.WriteListing | src/tools/list-projects.ts:48-58 | throws "projects is not iterable" for a value that is not iterable, else writes every project |
| ListProjects.WriteProjects | src/tools/list-projects.ts:48-58 | the loop writes each project's block in order |
| ListProjects.WriteProject | src/tools/list-projects.ts:49-57 | a project block is its heading, the country and list lines that apply, and a blank line |
| ListProjects.WriteListLine | src/tools/list-projects.ts:51-56 | a list line is written when `length` is truthy; `join` on a value that is not an array throws |
| ListProjects.ListProjectsRequest | src/tools/list-projects.ts:30-31 | URL `/v1/accounts/<prefix>/projects` with no query; "acc1_" for a falsy prefix |
| ListProjects.ListProjectsNone | src/tools/list-projects.ts:33-45 | no projects give the account's no-projects text with the message or "Data may still be processing." |
| ListProjects.ProjectBlocksDefined | src/tools/list-projects.ts:48-58 | renderable projects always render |
| ListProjects.ProjectBlocksAppend | src/tools/list-projects.ts:48-58 | one more project adds exactly its block at the end: there is no cap |
| ListProjects.ListProjectsAll | src/tools/list-projects.ts:47-58 | the heading gives the prefix and the full count, followed by every project's block |
| ListProjects.FormatWithProjects | src/tools/list-projects.ts:47-58 | with rendered projects the text is the heading with the count, then the blocks |
| ListProjects.ProjectLines | src/tools/list-projects.ts:49-56 | the name falls back to "Untitled"; a non-empty list is joined by ", "; an empty or missing list writes nothing |
| ListProjects.ProjectCountry | src/tools/list-projects.ts:49-57 | the country line follows the first line exactly when the country is truthy, and a falsy country leaves the first line followed directly by the list lines |
| ListProjects.BareProject | src/tools/list-projects.ts:49-57 | a project with no country and no lists is its heading and a blank line |
| ListAccounts.Outcome | src/tools/list-accounts.ts:17-42 | never sets the error flag; passes a request error on unchanged |
| ListAccounts.HandleListAccounts | src/tools/list-accounts.ts:16-43 | the handler method sends and answers exactly as `Respond` |
| ListAccounts.WriteListing | src/tools/list-accounts.ts:32-37 | the loop writes every account's block in order, or throws at a null account |
| ListAccounts.ListAccountsRequest | src/tools/list-accounts.ts:17 | URL `/v1/accounts` with the key headers and no query |
| ListAccounts.ListAccountsNone | src/tools/list-accounts.ts:19-29 | a missing, falsy or empty list gives exactly "No accounts found. Your data may still be processing." |
| ListAccounts.AccountBlocksDefined | src/tools/list-accounts.ts:32-37 | accounts that are not null or undefined always render |
| ListAccounts.WriteAccount | src/tools/list-accounts.ts:33-36 | the four lines written for an account are its block |
| ListAccounts.FormatWithAccounts | src/tools/list-accounts.ts:31-38 | with rendered accounts the text is the count heading, the blocks, then the hint |
| ListAccounts.ListAccountsAll | src/tools/list-accounts.ts:31-38 | "Found <n> account(s):", every account's block, and the list_projects hint last |
| ListAccounts.AccountFallbacks | src/tools/list-accounts.ts:33-36 | the name falls back to the prefix when falsy; the count becomes "unknown" only when nullish, so 0 prints as 0; "Yes" iff data_available is truthy |
| ScrapingStats.Outcome | src/tools/get-scraping-stats.ts:17-32 | never sets the error flag; passes the client error on unchanged |
| ScrapingStats.HandleGetScrapingStats | src/tools/get-scraping-stats.ts:16-33 | the handler method answers exactly as `Outcome` |
| ScrapingStats.StatsBase | src/tools/get-scraping-stats.ts:19-21 | the text always starts with the heading and the two usage lines, with "N/A" only for a nullish value |
| ScrapingStats.StatsLines | src/tools/get-scraping-stats.ts:19-28 | the text is the heading and usage lines followed by four independent pieces: Remaining and Active projects exactly when their value is not undefined (0 and null print), Last scan exactly when last_scan_at is truthy, the note exactly when the message is truthy |
| ScrapingStats.StatsOptionalLines | src/tools/get-scraping-stats.ts:22-28 | when the fields checked for undefined are undefined and the fields checked for truthiness are falsy, the text is just those three lines |
| ScrapingStats.StatsNoteLast | src/tools/get-scraping-stats.ts:28 | a truthy message gives the note, and it ends the text |
| ScrapingStats.StatsZeroShown | src/tools/get-scraping-stats.ts:20 | 0 scans used is printed as 0, not "N/A" |
| Server.ErrorString | src/index.ts:85 | `String(error)` is the name alone for an empty message, else "name: message" |
| Server.AvailableToolsListed | src/index.ts:74 | the unknown-tool message names the advertised tools in list order, joined by ", " |
| Server.DispatchesListedTools | src/index.ts:38-67 | a name reaches a handler iff it is one of the five listed tools |
| Server.DispatchTable | src/index.ts:53-67 | each listed name selects its own handler |
| Server.UnknownToolRejected | src/index.ts:69-78 | any other name gives "Unknown tool: <name>. Available tools: ..." with isError and no request |
| Server.UnwiredToolsUnknown | src/index.ts:13-17 | get_pricing, get_google_ads, get_title_analysis, get_search_terms and get_scraping_stats are not listed |
| Server.SuccessPassedThrough | src/index.ts:55-67 | a handler's successful result is returned unchanged |
| Server.ThrownReported | src/index.ts:80-89 | a thrown error gives isError and "Error: " + its message, or its name when the message is empty |
| Server.HandlersNeverFlag | src/index.ts:53-67 | no wired handler sets isError itself |
| Server.ErrorFlagMeaning | src/index.ts:53-89 | isError holds iff the name is unknown or the handler threw |
| Server.MissingArguments | src/index.ts:50-67 | a call without arguments to a tool that reads them fails with the read error of `account_prefix` on undefined, before any request |

## Left out

- Transport and bootstrap: the MCP SDK server, the stdio transport, the
  environment variables, `process.exit` and `main` are left out. The API key
  and base URL are the client constructor's parameters.
- `fetch`, `response.text()` and `response.json()`: the network is the `Reply`
  parameter, which already holds the status, the body text and the outcome of
  parsing the body.
- `async`/`await`: each handler awaits one call and has no concurrency of its
  own, so the handlers are sequential.
- URL construction: the model records the URL before its query string and
  the query pairs. Percent-encoding, and a base URL that carries its own
  query or fragment, are not modelled.
- Numbers are integers. Floating-point values and exponent notation in
  `String(x)` are not modelled.
- Strings are sequences of characters. The UTF-16 code units behind a string's
  `length` and iteration are not distinguished from characters.
- The tool descriptors: descriptions and input schemas are static metadata
  that the code never enforces. Only the names and their order are modelled.
- Client methods not defined in `src/api-client.ts` are not part of this
  model: `getPricing`, `getGoogleAds`, `getTitleAnalysis`, `getSearchTerms`
  and `getScrapingStats`. Their handlers are modelled from the completion of
  that call.
- Error wording: the model uses the V8 wording of the TypeErrors for a
  property read off null or undefined, a failed iteration and a missing
  `slice` or `join`.
- A thrown value that is not an error object, which has no `name` or
  `message`, is not modelled. Every thrown value here is an error object.
