# AgroYantra, modelled in Dafny

AgroYantra is a Next.js farming assistant. Its few pieces of real logic are modelled here:

- **The four API handlers** (`/api/soil-analysis`, `/api/crop-selection`, `/api/disease-identification`, `/api/weather-tips`):
  - they check the request and the `GEMINI_API_KEY`;
  - they build a prompt (for the weather handler, a per-day forecast summary);
  - they call Gemini and the Open-Meteo services;
  - they recover a JSON value from the model's free text: whole text first, then the first-open-to-last-close bracket span, then a default.
- **The page state machines**:
  - the community feed and its post form;
  - the disease-identification upload, drag and drop state;
  - the weather search;
  - the crop-selection and soil-management analyse cycles.
- **The plant mascot**: the choice of its weather overlay, by keyword priority.

## How the model is built

**Values and errors.**
- The JavaScript values the handlers touch are a `Json` datatype. `undefined` is `None`.
- Reading a member, an index or `.length` of `undefined` or `null` throws a `TypeError`. The model uses V8's message wording.
- Truthiness and the template-literal `String()` conversion are modelled explicitly (`JsonValues`).
- `JSON.parse` and base64 encoding are parameters. Nothing is assumed about how they behave.

**Handlers.**
- Each handler is a `method` that takes the replies of the services it calls as parameters.
- It returns the HTTP response (status and JSON body) and the list of outgoing calls it made. This is how "no model call is made" is stated.
- The weather handler is also stated as a function, `Handle`.
- The greedy regular expressions `/\{[\s\S]*\}/` and `/\[[\s\S]*\]/` are computed as "first open bracket to last close bracket". They are proved equal to the leftmost-longest match of the pattern.

**Pages.**
- Each page is a `class` whose fields are its React state. Its handlers are methods.
- A `setTimeout` callback, or the settling of a `fetch`, is a separate completion method. It receives the outcome as a parameter.

**Files.**

| file | contents |
|---|---|
| `outcomes.dfy` | `Option`, `Result` |
| `strings.dfy` | `includes`, the greedy bracket match, `substring(0, n)`, decimal numerals, line counting |
| `json.dfy` | JSON values, member/index/length reads, truthiness, string conversion, `JsError` |
| `http.dfy` | responses, upstream replies, outgoing calls, the shared `catch` answer |
| `recovery.dfy` | the abstract parser and the whole-text / span / default chain |
| `soil_analysis_route.dfy`, `crop_selection_route.dfy`, `disease_identification_route.dfy`, `weather_tips_route.dfy` | the handlers |
| `plant_mascot.dfy`, `community_page.dfy`, `disease_identification_page.dfy`, `weather_page.dfy`, `crop_selection_page.dfy`, `soil_management_page.dfy` | the pages |

## Model

| member | source | states |
|---|---|---|
| Strings.IncludesIff | src/app/weather/PlantMascot.tsx:79-82 | `includes` holds exactly when some position of the string starts a copy of the word |
| Strings.FirstIndex | src/app/api/crop-selection/route.ts:35 | the result is the first position holding the character, and it is absent only when no position holds it |
| Strings.LastIndex | src/app/api/crop-selection/route.ts:35 | the result is the last position holding the character, and it is absent only when no position holds it |
| Strings.GreedySpan | src/app/api/soil-analysis/route.ts:46 | a span found has at least two characters and lies inside the text |
| Strings.GreedySpanIsRegexMatch | src/app/api/soil-analysis/route.ts:46 | the span exists iff a close bracket follows the first open bracket; no span means the pattern matches nowhere; a span is the leftmost-longest match |
| Strings.GreedyMatchShape | src/app/api/disease-identification/route.ts:57 | the matched text starts with the open bracket, ends with the close bracket and occurs in the text |
| Strings.Truncate | src/app/api/disease-identification/route.ts:30-33 | `substring(0, n)` is a prefix, of length `min(n, length)` |
| Strings.NatToString | src/app/api/weather-tips/route.ts:29 | a numeral is non-empty and made of decimal digits |
| Strings.DecimalValueOfNatToString | src/app/api/weather-tips/route.ts:29 | reading a numeral back gives its number |
| Strings.NatToStringInjective | src/app/api/weather-tips/route.ts:29 | different day numbers print differently |
| Strings.CountAppend | src/app/api/weather-tips/route.ts:27-36 | line breaks of a concatenation add up |
| JsonValues.Lookup | src/app/api/weather-tips/route.ts:19 | a member is missing iff no binding has its key, and a member found is bound to it |
| JsonValues.SetFieldLookup | src/app/api/weather-tips/route.ts:74 | after `obj[key] = v`, the key reads `v` and every other key reads as before |
| JsonValues.Get | src/app/api/weather-tips/route.ts:13 | reading a member throws exactly on `undefined` and `null` |
| JsonValues.At | src/app/api/weather-tips/route.ts:19 | reading an index throws exactly on `undefined` and `null` |
| JsonValues.Length | src/app/api/soil-analysis/route.ts:53 | reading `.length` throws exactly on `undefined` and `null` |
| Recovery.WholeThenSpanOrder | src/app/api/disease-identification/route.ts:52-63 | a whole-text parse wins, and then nothing else is looked at; otherwise the brace span's parse; otherwise the default |
| Recovery.WholeThenSpanSources | src/app/api/weather-tips/route.ts:62-72 | the recovered value is the whole text's value, a `{...}` substring's value, or the default |
| Recovery.ParseSpanLocal | src/app/api/crop-selection/route.ts:35-38 | the span step depends only on how the span's own text parses |
| SoilAnalysisRoute.Post | src/app/api/soil-analysis/route.ts:3-62 | for each outcome (unreadable body, `null` body, missing key, unreachable upstream, non-OK reply, answer), the response and calls made; a missing key answers 500 "Gemini API key not set." before any call; a non-OK reply answers 500 with its body text |
| SoilAnalysisRoute.RecoverTips | src/app/api/soil-analysis/route.ts:40-52 | the `try`/`catch` block leaves `tips` as the whole reply if it parses to an array, else the parsed `[...]` span, else the first parse (or `[]`) |
| SoilAnalysisRoute.ArrayReplyWins | src/app/api/soil-analysis/route.ts:41-43 | when the whole reply parses to an array it is the tips, whatever the bracket span holds |
| SoilAnalysisRoute.NonArrayFallsBack | src/app/api/soil-analysis/route.ts:44-52 | otherwise the `[...]` span's value is taken if it parses; if not, the non-array first value (or `[]`) stays |
| SoilAnalysisRoute.BracketSpanShape | src/app/api/soil-analysis/route.ts:46 | the span parsed runs from the first `[` to the last `]` and is the regex's leftmost-longest match |
| SoilAnalysisRoute.TipsBodyShape | src/app/api/soil-analysis/route.ts:53-54 | the answer is 200 or 500; a 200 body is exactly `{ tips }`, with either tips whose length is truthy or `[aiText]` |
| SoilAnalysisRoute.MissingCandidate | src/app/api/soil-analysis/route.ts:39-54 | with no candidate text, the tips are `["[]"]` |
| SoilAnalysisRoute.NullReplyFails | src/app/api/soil-analysis/route.ts:53-60 | a reply of `null` with no bracketed array makes `tips.length` throw: 500 with the TypeError |
| SoilAnalysisRoute.StringReplySurvives | src/app/api/soil-analysis/route.ts:42-53 | a reply that is a non-empty JSON string is sent as `tips` although it is not an array |
| CropSelectionRoute.Post | src/app/api/crop-selection/route.ts:9-52 | an unreadable or `null` body answers 500 "Failed to get crop recommendations."; a missing or empty field answers 400 "Missing required fields." without a model call; otherwise one model call, 500 on its failure, else 200 with the recovered data |
| CropSelectionRoute.PromptCarriesConditions | src/app/api/crop-selection/route.ts:19 | the prompt holds the "Soil type", "Region" and "Season" lines with the inputs verbatim |
| CropSelectionRoute.SpanOnly | src/app/api/crop-selection/route.ts:35-38 | only the brace span is parsed, never the whole text; no span gives the default |
| CropSelectionRoute.UnparsableSpanKeepsDefault | src/app/api/crop-selection/route.ts:36-42 | a span that does not parse leaves the default unchanged |
| CropSelectionRoute.DefaultShape | src/app/api/crop-selection/route.ts:28-33 | the default has empty `recommendedCrops`, `popularCrops` and `growingTips`, and a weather object of three empty strings |
| DiseaseIdentificationRoute.ComposePrompt | src/app/api/disease-identification/route.ts:28-35 | the prompt built by successive appends is the preamble, the case lines, the optional image section and the instruction |
| DiseaseIdentificationRoute.Post | src/app/api/disease-identification/route.ts:5-71 | an unreadable form, or an uploaded image whose `arrayBuffer()` rejects, answers 500 with its error and no call; a missing key answers 500 "Gemini API key not set." before any call; otherwise one model call, 500 with the body text on a non-OK reply, else 200 with the recovered result (default `{}`, reply text default "{}") |
| DiseaseIdentificationRoute.PromptFrame | src/app/api/disease-identification/route.ts:28-35 | the prompt always opens with the crop and symptom lines and always ends with the JSON instruction |
| DiseaseIdentificationRoute.ImageSectionIff | src/app/api/disease-identification/route.ts:29-34 | the image section is present iff the base64 text is non-empty, and then holds its first `min(100, length)` characters and "... (truncated)" |
| DiseaseIdentificationRoute.OnlyFilesAreImages | src/app/api/disease-identification/route.ts:12-19 | only an uploaded file yields image text |
| DiseaseIdentificationRoute.MissingCandidate | src/app/api/disease-identification/route.ts:51-54 | with no candidate text, the result is `{}` |
| WeatherTipsRoute.Cells | src/app/api/weather-tips/route.ts:29-35 | a day's cells are read left to right, one per column, each the column's entry for that day |
| WeatherTipsRoute.Daily | src/app/api/weather-tips/route.ts:26-27 | once the header is read, `forecast.time` is neither `undefined` nor `null` |
| WeatherTipsRoute.BuildSummary | src/app/api/weather-tips/route.ts:27-36 | the loop builds the header and then one line per day, or stops with the first error a read throws |
| WeatherTipsRoute.Post | src/app/api/weather-tips/route.ts:3-82 | the handler computes `Handle`: the responses and the ordered calls for every combination of request and replies |
| WeatherTipsRoute.DayLinesStop | src/app/api/weather-tips/route.ts:28-36 | a read that throws on one day ends the summary with that error, however many days follow |
| WeatherTipsRoute.DayLinesPrefix | src/app/api/weather-tips/route.ts:28-36 | the summary of fewer days is a prefix of the summary of more |
| WeatherTipsRoute.DayLineShape | src/app/api/weather-tips/route.ts:29 | day `i`'s line starts "Day i+1 (" and that day's date, and ends with a line break |
| WeatherTipsRoute.DayLineAt | src/app/api/weather-tips/route.ts:28-36 | day `i`'s line comes right after the lines of days `0..i-1` |
| WeatherTipsRoute.DayTextOneLine | src/app/api/weather-tips/route.ts:29-35 | a day's text is exactly one line when its cells hold no line break |
| WeatherTipsRoute.DayLinesCount | src/app/api/weather-tips/route.ts:28-36 | `n` days give exactly `n` lines |
| WeatherTipsRoute.HeaderOneLine | src/app/api/weather-tips/route.ts:27 | the header is exactly one line |
| WeatherTipsRoute.SummaryLines | src/app/api/weather-tips/route.ts:27-36 | the summary starts with the header naming "name, country" and the first date, and, when no text in it holds a line break, has one line per day plus one; an array `time` gives one day per entry |
| WeatherTipsRoute.NotFoundIff | src/app/api/weather-tips/route.ts:13-18 | exactly a missing, falsy or empty `results` answers 400 "Location not found." |
| WeatherTipsRoute.NotFoundStopsEarly | src/app/api/weather-tips/route.ts:13-18 | then only the geocoding call has been made |
| WeatherTipsRoute.OnlyFirstResult | src/app/api/weather-tips/route.ts:19 | geocoding replies that agree on the first result are handled alike |
| WeatherTipsRoute.KeyCheckedLate | src/app/api/weather-tips/route.ts:39-45 | without a key, both lookups have already been made, the answer is 500 "Gemini API key not set." and the model is not called |
| WeatherTipsRoute.NoKeyNoModel | src/app/api/weather-tips/route.ts:39-46 | without a key no call made is a model call |
| WeatherTipsRoute.DailyNeedsObject | src/app/api/weather-tips/route.ts:24-27 | a forecast the summary can be read from is an object |
| WeatherTipsRoute.LabelledMembers | src/app/api/weather-tips/route.ts:74 | the returned forecast carries `location_name` = "name, country" and every other member unchanged |
| WeatherTipsRoute.SuccessShape | src/app/api/weather-tips/route.ts:59-75 | a 200 answer needs a model reply after geocode, forecast and model calls, and is `{ weather, tips }` with the labelled forecast and the recovered tips |
| PlantMascot.PickOverlay | src/app/weather/PlantMascot.tsx:77-82 | the if/else chain gives the overlay of the first keyword (rain, cloud, wind, sun) found |
| PlantMascot.OverlayPriority | src/app/weather/PlantMascot.tsx:78-82 | rainy iff "rain" occurs; cloudy iff "cloud" without "rain"; windy iff "wind" without the earlier two; sunny otherwise |
| PlantMascot.SunnyExamples | src/app/weather/PlantMascot.tsx:5-88 | the default condition gives the sunny overlay on the left; "Rainy" gives sunny, as matching is case-sensitive |
| PlantMascot.SideClass | src/app/weather/PlantMascot.tsx:86-88 | "left" gives `left-2`, every other value `right-2` |
| PlantMascot.SunRays | src/app/weather/PlantMascot.tsx:17-27 | eight rays, ray `i` rotated by `i*45` degrees |
| PlantMascot.SunRaysSpread | src/app/weather/PlantMascot.tsx:17-27 | the rotations are increasing, lie in `[0, 360)` and are evenly spaced |
| CommunityPage.Posted | src/app/community/page.tsx:177-189 | the feed grows by one: the new post first, numbered length + 1, by "You" ("U", "just now", no likes or comments), then the old posts unchanged and in order |
| CommunityPage.PostedKeepsIds | src/app/community/page.tsx:179 | posting keeps ids distinct and within `1..length` |
| CommunityPage.IdsStayDistinct | src/app/community/page.tsx:176-189 | from a feed with valid ids, such as the sample one, ids stay distinct after any sequence of posts |
| CommunityPage.MockPostsIdsOk | src/app/community/page.tsx:29-60 | the sample feed's ids are 1..3, distinct |
| CommunityPage.Feed.constructor | src/app/community/page.tsx:175 | the feed starts as the sample posts |
| CommunityPage.Feed.HandlePost | src/app/community/page.tsx:176-190 | the new feed is `Posted(old feed)`, and the ids stay valid |
| CommunityPage.PostForm.constructor | src/app/community/page.tsx:67-68 | the form starts empty |
| CommunityPage.PostForm.SetTitle | src/app/community/page.tsx:80 | typing changes only the title |
| CommunityPage.PostForm.SetContent | src/app/community/page.tsx:86 | typing changes only the content |
| CommunityPage.PostForm.Click | src/app/community/page.tsx:90-97 | with both fields filled, posts them and clears the form; otherwise nothing changes |
| DiseaseIdentificationPage.LateBlight | src/app/disease-identification/page.tsx:83-93 | the fixed result is "Late Blight" with three suggestions and severity "high" |
| DiseaseIdentificationPage.ChosenImage | src/app/disease-identification/page.tsx:54-78 | a non-empty file list gives its first file; otherwise the image is kept |
| DiseaseIdentificationPage.DragActiveAfter | src/app/disease-identification/page.tsx:64-68 | dragenter and dragover turn the highlight on, dragleave turns it off, other events leave it |
| DiseaseIdentificationPage.Page.constructor | src/app/disease-identification/page.tsx:47-52 | no image, empty fields, no result, not loading, no highlight |
| DiseaseIdentificationPage.Page.SetCrop | src/app/disease-identification/page.tsx:176 | choosing a crop changes only the crop |
| DiseaseIdentificationPage.Page.SetSymptom | src/app/disease-identification/page.tsx:195 | typing changes only the symptom text |
| DiseaseIdentificationPage.Page.HandleImageChange | src/app/disease-identification/page.tsx:54-58 | only the image changes, by `ChosenImage` |
| DiseaseIdentificationPage.Page.HandleDrag | src/app/disease-identification/page.tsx:61-69 | only the highlight changes, by `DragActiveAfter` |
| DiseaseIdentificationPage.Page.HandleDrop | src/app/disease-identification/page.tsx:71-78 | the highlight is always cleared; the image changes only for a dropped file |
| DiseaseIdentificationPage.Page.HandleIdentify | src/app/disease-identification/page.tsx:80-82 | loading starts and one timer is pending |
| DiseaseIdentificationPage.Page.ClickIdentify | src/app/disease-identification/page.tsx:201-202 | the button does nothing without an image or while loading |
| DiseaseIdentificationPage.Page.CompleteIdentify | src/app/disease-identification/page.tsx:82-95 | the timer sets the Late Blight result and clears loading |
| DiseaseIdentificationPage.LateBlightAlerts | src/app/disease-identification/page.tsx:212-216 | that result shows the alert icon (severity "high") |
| WeatherPage.MockWeather | src/app/weather/page.tsx:36-78 | the sample is for "Bangalore, India" on today's date, with a five-day outlook Mon to Fri |
| WeatherPage.SearchResult | src/app/weather/page.tsx:261-268 | a non-empty location or date replaces the sample's; every other field is the sample's |
| WeatherPage.Page.constructor | src/app/weather/page.tsx:259 | the page starts with the sample weather |
| WeatherPage.Page.HandleSearch | src/app/weather/page.tsx:261-268 | the new weather is `SearchResult` of the arguments alone, not of the previous state |
| WeatherPage.SearchForm.constructor | src/app/weather/page.tsx:108-109 | the form starts empty |
| WeatherPage.SearchForm.SetLocation | src/app/weather/page.tsx:126 | typing changes only the location |
| WeatherPage.SearchForm.SetDate | src/app/weather/page.tsx:136 | typing changes only the date |
| WeatherPage.SearchForm.Click | src/app/weather/page.tsx:141-143 | the button searches with the form's values, and does nothing while the location is empty |
| WeatherPage.SearchNamesLocation | src/app/weather/page.tsx:261-268 | a search with a location shows it, with the sample outlook |
| CropSelectionPage.Take | src/app/crop-selection/page.tsx:113 | `slice(0, n)` keeps the first `min(n, length)` elements in order |
| CropSelectionPage.Page.constructor | src/app/crop-selection/page.tsx:102-107 | nothing selected, no recommendations, not analysing |
| CropSelectionPage.Page.HandleAnalyze | src/app/crop-selection/page.tsx:109-111 | analysing starts and one timer is pending |
| CropSelectionPage.Page.SetLocation | src/app/crop-selection/page.tsx:164 | choosing a location changes only the location |
| CropSelectionPage.Page.SetSeason | src/app/crop-selection/page.tsx:188 | choosing a season changes only the season |
| CropSelectionPage.Page.SetSoilType | src/app/crop-selection/page.tsx:218 | choosing a soil type changes only the soil type |
| CropSelectionPage.Page.SetExperience | src/app/crop-selection/page.tsx:240 | choosing an experience level changes only that level |
| CropSelectionPage.Page.ClickAnalyze | src/app/crop-selection/page.tsx:254-261 | the button does nothing while a selection is empty or analysis is running |
| CropSelectionPage.Page.CompleteAnalyze | src/app/crop-selection/page.tsx:112-115 | the timer sets the first three popular crops and ends analysing; the recommendations card then shows |
| CropSelectionPage.CropTables | src/app/crop-selection/page.tsx:50-113 | four popular crops keyed "1".."4", distinct; the recommendations are Tomatoes, Basil and Bell Peppers with distinct keys |
| SoilManagementPage.Settle | src/app/soil-management/page.tsx:62-72 | a failure always carries a non-empty message |
| SoilManagementPage.SettleCases | src/app/soil-management/page.tsx:68-72 | an OK answer gives `data.tips`; a non-OK one without `error` gives "Unknown error"; a thrown error without a message gives "Failed to analyze soil."; a `null` body fails on reading its member |
| SoilManagementPage.ReplyErrorShown | src/app/soil-management/page.tsx:68-72 | a non-OK answer's non-empty `error` string is the message shown |
| SoilManagementPage.TipCards | src/app/soil-management/page.tsx:206-228 | a non-empty array result gives cards "Tip 1".."Tip n", each showing its entry as React renders it, and the render throws exactly when some entry cannot be rendered; otherwise the three static tips |
| SoilManagementPage.ChildTextCases | src/app/soil-management/page.tsx:214 | as a React child a string shows itself and a number its numeral, `null` and booleans show nothing, an object throws, and an array throws iff one of its elements does, else shows them run together |
| SoilManagementPage.ConcatNone | src/app/soil-management/page.tsx:214 | children rendered in a row throw exactly when one of them throws |
| SoilManagementPage.StaticTipsIff | src/app/soil-management/page.tsx:206 | the static tips are shown exactly when the result is not a non-empty array |
| SoilManagementPage.Page.SetLocation | src/app/soil-management/page.tsx:117 | choosing a location changes only the location |
| SoilManagementPage.Page.SetSoilType | src/app/soil-management/page.tsx:134 | choosing a soil type changes only the soil type |
| SoilManagementPage.Page.SetMoisture | src/app/soil-management/page.tsx:157 | typing changes only the moisture |
| SoilManagementPage.Page.SetPh | src/app/soil-management/page.tsx:171 | typing changes only the pH |
| SoilManagementPage.Page.constructor | src/app/soil-management/page.tsx:50-56 | empty fields, not analysing, no result, no error |
| SoilManagementPage.Page.StartAnalyze | src/app/soil-management/page.tsx:58-67 | analysing starts, result and error are cleared, and the request carries the four fields |
| SoilManagementPage.Page.CompleteAnalyze | src/app/soil-management/page.tsx:62-75 | analysing ends on every path; success sets only the result, failure only the error, as `Settle` says |

## Left out

- Network calls are not modelled. The Gemini `fetch` and SDK calls, the Open-Meteo geocoding and forecast calls, and the page's `fetch` are parameters of the handlers. The calls themselves are only recorded in `calls`.
- `encodeURIComponent` and the request URLs are not modelled. A geocoding call records the location's text, and a forecast call records the two coordinates' text.
- `JSON.parse` is an abstract parameter, and `Buffer` base64 encoding is one too. Nothing about their behaviour is assumed.
- Numbers are whole numbers in the model. Fractional JSON numbers, crop ratings, temperatures and animation delays are not modelled.
- `Http.Reply`: the value at `candidates[0].content.parts[0].text` is taken to be a string or absent. A non-string value there is not modelled.
- `JsonValues.Member`: keys that are array indices or `length` read through `At` and `Length`. Every key the handlers name is an ordinary key, so `Member` covers them.
- `WeatherTipsRoute.LoopBound`: the loop bound takes a numeric length as is, `true` as 1, and anything else as 0. A string `length` that JavaScript would convert to a number is not modelled.
- `WeatherTipsRoute.Labelled`: it handles only an object forecast. That is the only kind `DailyNeedsObject` lets reach it.
- `SoilManagementPage.Page`: `null` and `undefined` results are one state, because they render alike.
- Strings are sequences of Unicode scalar values, while JavaScript counts UTF-16 code units. So `.length`, indexing and `slice` agree with JavaScript only for text without characters outside the Basic Multilingual Plane. This affects `JsonValues.Length`, `Strings.Truncate` and `WeatherTipsRoute.LoopBound`; an emoji counts 1 here and 2 in JavaScript.
- Engine-specific error text is not modelled. The `TypeError` messages follow V8's wording; other engines word them differently.
- `console` logging is not modelled.
- JSX layout, icons, CSS animations and fonts are not modelled. Neither are the static page and dashboard, the navigation bar colour lookup, or the Supabase authentication and profile glue.
- The crop page's star ratings and emoji pictures are not modelled.
- `setTimeout` delays are not modelled. Each timer is a `pending` count and a completion method.
- React's batching of state updates is not modelled. Each handler's updates are applied in order.
