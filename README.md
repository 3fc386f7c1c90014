# SahayataAI in Dafny

SahayataAI is a government-scheme discovery service for Andhra Pradesh. It has a FastAPI backend over a PostgreSQL table of schemes and a React client in English, Telugu and Hindi.

This project models the parts of it that make decisions:

- **Backend matching and ranking:**
  - the relevance score;
  - the eligibility filter builder, its AND query with an OR fallback, and the top-20 ranking;
  - the statistics arithmetic and the parameter bounds of the search endpoint.
- **The chatbot:**
  - keyword extraction;
  - the scored search with its order, limit and description truncation;
  - the reply formatter;
  - the `chat` wrapper.
- **The CSV importer:** the category classifier and the per-row field stripping.
- **Accounts:** the signup validators and the signup/login flow over a users table.
- **The database address:** its default value and the `postgres://` rewrite.
- **The client's state machines:**
  - the three-step eligibility wizard;
  - the sign-in/sign-up dialog;
  - the chat transcript;
  - the root component's session record in local storage;
  - the header (avatar initials, search overlay, profile menu);
  - the scheme details panel;
  - the language provider.

## How the model is built

**Tables.** A database table is a sequence of rows (`SchemeData.Scheme`, `Auth.User`).

- `ILIKE '%x%'` and `LOWER(c) LIKE '%x%'` are case-insensitive substring tests on ASCII letters (`SchemeData.ILike`, `Chatbot.Like`).
- `ORDER BY id` is a stable sort on the negated id (`SchemeData.ById`).
- `ORDER BY score DESC, id ASC` is a stable sort by score applied to id-ordered rows. `Sorting.SortLex` proves the combined order.
- A `NULL` text column is represented by `""`. Python's `x or ""` and JavaScript truthiness treat the two alike.

**Backend endpoints.**

- `calculate_relevance`, the statistics, the search endpoint, `extract_category` and the validators are functions.
- `check_eligibility` builds its filter list, parameter map and index in a method, `Schemes.BuildFilters`. That method is proved against a declarative list of criteria (`Schemes.ActiveCriteria`). Each filter is proved to mean its criterion (`Schemes.FiltersMeaning`).
- The query is then specified on those criteria (`Schemes.EligibleRows`), and `Schemes.CheckEligibility` is proved against it.
- The `search_database` loop, the `generate_response` `+=` loop and the keyword-extraction loops are methods proved equal to declarative functions. Those functions carry the properties.

**Client components.** Each React component is a class whose fields are its `useState` variables.

- A snapshot datatype gathers the fields, and `State()` returns it.
- Every handler is a method whose `ensures` ties the new snapshot to a pure transition function of the old one. The lemmas are stated on those functions.
- An awaited call is one atomic step. Its outcome is an input to the handler: the response, or `None` / `Thrown(message)` when the call fails.

**External facilities become parameters:**

- bcrypt's check is a predicate `checkPassword`, and the stored hash is an input;
- `datetime.strptime` is a partial `parseDob`;
- `JSON.stringify` / `JSON.parse` are `serialize` / `parse`;
- the environment variable is an `Option`;
- a database failure inside the chatbot's search is a `failed` flag, which the search itself turns into an empty result;
- an unexpected server failure in `chat` is a `fault` flag.

## Where the behaviour follows the code

In a few places the code does something a reader of its comments and user-facing texts might not expect. The model follows the code:

- A signup or login response without `success` leaves the dialog open with no error message at all.
- Leaving step 1 of the wizard needs a *truthy* age, so 0 and NaN block it as well as an empty field.
- Closing the chat window keeps its transcript, because the component stays mounted.

## Model

| member | source | states |
|---|---|---|
| Schemes.CalculateRelevance | backend/routes/schemes.py:59-108 | The score never exceeds 20+25+30+15+20+30+30+25+5 = 200 |
| Schemes.RelevanceBoundReached | backend/routes/schemes.py:59-108 | The bound 200 is reached by a profile and tags that trigger every bonus |
| Schemes.AgeAndIncomeBlocks | backend/routes/schemes.py:69-75 | The age block gives 0 or 25 and gives 0 for ages 36–59. The income block gives 0 or 25 and gives 0 for an income of 300000 or more |
| Schemes.LowIncomeFallsToEws | backend/routes/schemes.py:98-102 | An income below 100000 with an "ews" tag scores 25 through the `elif`, even without "bpl" or "poor" |
| Schemes.EmptyProfileRelevance | backend/routes/schemes.py:62-106 | With no profile values the score is 5 when the tags contain "all" and 0 otherwise |
| Schemes.RelevanceIgnoresCase | backend/routes/schemes.py:62 | Tags are compared lower-cased, so their case never changes the score |
| Schemes.ActiveCriteria | backend/routes/schemes.py:331-405 | A profile yields at most one criterion per field, so at most 8 |
| Schemes.InactiveValues | backend/routes/schemes.py:338-405 | These add no criterion: an age absent, 0 or 36–59; occupation absent or "Other"; caste absent or "General"; income absent or ≥ 300000. An empty profile has none |
| Schemes.Filters | backend/routes/schemes.py:326-405 | One filter per criterion |
| Schemes.FiltersAt | backend/routes/schemes.py:326-405 | The k-th filter is the one built for the k-th criterion with index k |
| Schemes.KeyInjective | backend/routes/schemes.py:334-404 | Placeholder names `filter{i}{s}` with i < 10 and s in {"", "1", "2", "3"} determine i and s |
| Schemes.ParamsLookup | backend/routes/schemes.py:334-404 | Every parameter a criterion binds is in the final map with that value |
| Schemes.PlaceholdersBound | backend/routes/schemes.py:333-404 | Every placeholder a filter mentions is bound by the same criterion |
| Schemes.ValueFilterMeaning | backend/routes/schemes.py:331-381 | The gender, occupation, location and caste filters hold on tags iff their criterion does |
| Schemes.AgeFilterMeaning | backend/routes/schemes.py:348-358 | The youth and senior filters hold iff their criterion does |
| Schemes.ChildFilterMeaning | backend/routes/schemes.py:341-346 | The child filter holds iff the tags name child, student or minor |
| Schemes.NeedFilterMeaning | backend/routes/schemes.py:383-393 | The disability and minority filters hold iff their criterion does |
| Schemes.IncomeFilterMeaning | backend/routes/schemes.py:396-405 | The BPL and EWS filters hold iff their criterion does |
| Schemes.FilterMeaning | backend/routes/schemes.py:326-405 | Every filter, with its bound parameters, holds on tags iff its criterion does |
| Schemes.FiltersMeaning | backend/routes/schemes.py:419-432 | The AND of the filters is "every criterion holds" and their OR is "some criterion holds" |
| Schemes.PlaceholderName | backend/routes/schemes.py:333-404 | Every placeholder is `filter{i}` or `filter{i}1..3`, and a single-parameter filter has one placeholder |
| Schemes.ParamNamesDistinct | backend/routes/schemes.py:333-404 | All placeholder names in the built filter list are pairwise distinct |
| Schemes.AddGender | backend/routes/schemes.py:331-335 | Appending the gender filter keeps filters, params and index in step with the criteria |
| Schemes.AddAge | backend/routes/schemes.py:338-358 | The same for the age block, with its three bands |
| Schemes.AddOccupation | backend/routes/schemes.py:361-365 | The same for occupation |
| Schemes.AddLocation | backend/routes/schemes.py:368-372 | The same for location |
| Schemes.AddCaste | backend/routes/schemes.py:375-380 | The same for caste |
| Schemes.AddDisability | backend/routes/schemes.py:383-387 | The same for disability |
| Schemes.AddMinority | backend/routes/schemes.py:390-393 | The same for minority |
| Schemes.AddIncome | backend/routes/schemes.py:396-405 | The same for the two income bands |
| Schemes.BuildFilters | backend/routes/schemes.py:326-405 | The built lists equal the filters and params of the profile's criteria. `filter_index` ends equal to the number of filters (≤ 8). Each filter holds iff its criterion does |
| Schemes.TakeById | backend/routes/schemes.py:425-426 | `ORDER BY id LIMIT n` gives ascending ids drawn from the input, and is empty only for an empty input |
| Schemes.EligibleRowsBounds | backend/routes/schemes.py:408-441 | At most 50 rows, all from the table. With filters they are in id order and each meets at least one criterion |
| Schemes.NoCriteriaUniversal | backend/routes/schemes.py:408-416 | Without filters only schemes whose tags contain "all" (any case) are returned |
| Schemes.ConjunctionPreferred | backend/routes/schemes.py:417-431 | When some row meets every criterion the result is non-empty and every returned row meets every criterion, so the OR query did not run |
| Schemes.FilterQueries | backend/routes/schemes.py:419-441 | The SQL AND/OR over the built filters selects the same rows as "all criteria" / "some criterion" |
| Schemes.ScoreRows | backend/routes/schemes.py:443-456 | One scored entry per row, in row order, scored with `calculate_relevance` |
| Schemes.RankedOrder | backend/routes/schemes.py:459-464 | The ranked list has min(20, n) entries in non-increasing score order. Rows given in id order keep that order among equal scores (stable sort) |
| Schemes.RankedFromRows | backend/routes/schemes.py:443-464 | Every ranked entry is a scored row of the query result |
| Schemes.RankedIsTop | backend/routes/schemes.py:459-464 | A row cut by the top-20 truncation scores no more than any kept entry |
| Schemes.CheckEligibility | backend/routes/schemes.py:323-465 | `count` is the pre-truncation number of rows (≤ 50). `eligible_schemes` is the ranked top 20, sorted by score then id, each a scored query row, and no cut row outranks a kept one |
| Schemes.GetStatistics | backend/routes/schemes.py:112-137 | `central_schemes = total_schemes − ap_schemes`, which is the number of rows not matching the AP condition |
| Schemes.ApAlternativeIsLoose | backend/routes/schemes.py:129 | Any English name containing "ap" in any case (e.g. "Mahatma Gandhi Rural Employment Scheme" does not, "Cheap Housing" does) counts as an AP scheme |
| Schemes.SearchRows | backend/routes/schemes.py:176-212 | At most `limit` rows, each matching the language's columns. When fewer than `limit` are returned, every matching row is returned |
| Schemes.SearchSchemes | backend/routes/schemes.py:167-234 | 422 iff the query is shorter than 2, the language is not en/te/hi, or the limit is over 100. 500 for a negative limit. Otherwise `count` equals the list length (≤ limit), each entry is a matching row, and the list is complete when under the limit |
| Schemes.TeluguSearchIgnoresEnglish | backend/routes/schemes.py:189-200 | A Telugu search does not look at the English name, the English description or the tags |
| SchemeData.ByIdOrdered | backend/routes/schemes.py:425 | `ORDER BY id` returns a permutation of the rows in ascending id order |
| SchemeData.Select | frontend/src/components/EligibilityChecker/EligibilityChecker.tsx:311-313 | The one language rule every view uses: the en column for en, the te column for te, and the hi column for every other code |
| Chatbot.KeywordHitsMeaning | backend/routes/chatbot.py:69-73 | A string is collected for a category iff some keyword of it occurs in the query and the string is that keyword or the category name |
| Chatbot.IntentHitsMeaning | backend/routes/chatbot.py:68-73 | The same over all categories of the language's table |
| Chatbot.IntentHitsEmpty | backend/routes/chatbot.py:61-75 | Nothing is extracted iff no keyword of the language occurs in the lower-cased query |
| Chatbot.UnknownLanguageKeywords | backend/routes/chatbot.py:66 | A language without its own table is matched against the English keywords |
| Chatbot.CollectHits | backend/routes/chatbot.py:68-73 | The nested loops over any keyword table collect exactly the specified hits: every keyword occurring in the query together with its category |
| Chatbot.ExtractQueryKeywords | backend/routes/chatbot.py:61-75 | The nested loops add exactly the keywords found in the lower-cased query and their categories |
| Chatbot.RowScore | backend/routes/chatbot.py:120-158 | The score is at most 540, and it is positive iff the WHERE clause selects the row |
| Chatbot.FullScore | backend/routes/chatbot.py:120-147 | A row matching in every column and in the keyword clause scores exactly 540 |
| Chatbot.TopMatchesOrder | backend/routes/chatbot.py:159-160 | min(limit, #selected) rows, ordered by score descending, then id ascending |
| Chatbot.TopMatchesSelected | backend/routes/chatbot.py:148-158 | Every returned row is a selected table row scoring 1–540 |
| Chatbot.TopMatchesAreTop | backend/routes/chatbot.py:159-160 | A selected row cut by the limit scores no more than any returned row |
| Chatbot.TopMatchesComplete | backend/routes/chatbot.py:149-160 | When the selection fits the limit, every selected row is returned |
| Chatbot.Truncate | backend/routes/chatbot.py:167-169 | A description of up to 180 characters is kept. A longer one becomes its first 180 characters plus "..." (183 in all) |
| Chatbot.TruncateIdempotent | backend/routes/chatbot.py:169 | Truncating twice is truncating once |
| Chatbot.SearchResults | backend/routes/chatbot.py:81-197 | At most `limit` entries |
| Chatbot.PresentedOrder | backend/routes/chatbot.py:165-183 | Turning rows into entries one by one keeps the score-then-id order |
| Chatbot.PresentedSound | backend/routes/chatbot.py:165-183 | Each entry presents one of the rows, with its score |
| Chatbot.SearchResultsSpec | backend/routes/chatbot.py:81-191 | Entries come by score descending, then id ascending, and each presents a selected table row with a score of 1–540 |
| Chatbot.PresentRows | backend/routes/chatbot.py:165-183 | The loop builds one entry per row, in order |
| Chatbot.SearchDatabase | backend/routes/chatbot.py:81-197 | Returns the specified result list: at most `limit` entries, `[]` for a language whose columns do not exist, and `[]` when the query fails, because the search catches the error |
| Chatbot.Join | backend/routes/chatbot.py:251 | `"".join(options)` contains every option |
| Chatbot.PhrasingFor | backend/routes/chatbot.py:257-303 | Reply templates exist exactly for en, te and hi |
| Chatbot.ReplyDefined | backend/routes/chatbot.py:206-305 | A reply is produced iff nothing was found or the language has templates. With nothing found, an unknown language gets the English suggestions |
| Chatbot.ComposeHeadlines | backend/routes/chatbot.py:254-259 | A reply about found schemes starts with the full count and names `schemes[0]` in bold |
| Chatbot.ListedInCompose | backend/routes/chatbot.py:266-271 | Text in the "more schemes" lines appears in the reply |
| Chatbot.ComposeListsNext | backend/routes/chatbot.py:266-269 | With two or more schemes the reply lists the second as "2." and, when present, the third as "3." |
| Chatbot.LinesPrefix | backend/routes/chatbot.py:268-269 | The listing lines depend only on the first entries |
| Chatbot.ReplyReadsTopThree | backend/routes/chatbot.py:254-305 | Apart from the count, a reply depends only on the first three entries |
| Chatbot.WriteHeadline | backend/routes/chatbot.py:258-264 | The `+=` steps build the headline: the count, the top name, the optional category and type lines, and the 160-character excerpt |
| Chatbot.WriteListing | backend/routes/chatbot.py:266-269 | The loop appends "i. name" for entries 2..min(3, count) after the "more schemes" label |
| Chatbot.Describe | backend/routes/chatbot.py:254-305 | The imperative reply equals the specified one |
| Chatbot.GenerateResponse | backend/routes/chatbot.py:203-305 | Returns the specified reply: suggestions when nothing was found (English by default), the templated reply otherwise, and none for found schemes in an unknown language |
| Chatbot.Normalise | backend/routes/chatbot.py:315 | The language becomes en/te/hi and a supported code is kept |
| Chatbot.Chat | backend/routes/chatbot.py:312-344 | Normalises the language, searches with limit 10, replies about all results and attaches the first 3. A failed search gives the suggestions reply with no schemes. A failure escaping the handler gives the error text for the raw language with no schemes |
| Chatbot.SearchFailureSuggests | backend/routes/chatbot.py:193-197 | A failed search is answered with the normalised language's suggestions, never with the error text |
| ImportData.ExtractCategory | backend/import_data.py:12-35 | The category is always one of the ten fixed names |
| ImportData.Chain | backend/import_data.py:16-35 | The if/elif chain returns one of the ten names |
| ImportData.Classify | backend/import_data.py:16-35 | A rule list yields one of its categories or the default |
| ImportData.ClassifyFirstMatch | backend/import_data.py:16-35 | The first rule with a matching word decides, and with none the default is returned |
| ImportData.ChainFirstRules | backend/import_data.py:16-23 | The first four rule words are exactly the chain's tests |
| ImportData.ChainLastRules | backend/import_data.py:24-33 | The last five rule words are exactly the chain's tests |
| ImportData.ExtractCategoryFollowsRules | backend/import_data.py:12-35 | `extract_category` is the first-match rule list on the lower-cased stringified tags |
| ImportData.StrippedWord | backend/import_data.py:14-74 | Stripping surrounding white space never changes whether a word occurs, when the word is non-empty and neither starts nor ends with white space |
| ImportData.ClassifyIgnoresStrip | backend/import_data.py:55-74 | A rule list whose words neither start nor end with white space classifies stripped and unstripped tags alike |
| ImportData.RulesArePlain | backend/import_data.py:16-33 | Every rule word is non-empty and neither starts nor ends with white space |
| ImportData.CategoryIgnoresStrip | backend/import_data.py:55-74 | The category from the raw tags equals the one from the stripped tags |
| ImportData.FarmerBeforeStudent | backend/import_data.py:16-19 | "Farmer Student" is classified as Agriculture, Rural & Environment |
| ImportData.ChildrenIsWomenAndChild | backend/import_data.py:14-20 | "Children" is classified as Women and Child |
| ImportData.MissingTagsDefault | backend/import_data.py:34-35 | A missing cell ("nan") falls to Social welfare & Empowerment |
| ImportData.CategoriesHaveIcons | frontend/src/components/Categories/Categories.tsx:20-105 | Every category the importer can produce has an icon entry in the client |
| ImportData.Field | backend/import_data.py:58-75 | An imported text field never starts or ends with white space |
| ImportData.ImportRow | backend/import_data.py:54-79 | The row's category is one of the ten names and equals the category of its stored tags |
| ImportData.ImportRows | backend/import_data.py:54-79 | One imported scheme per CSV row, in order |
| Auth.MatchDigits | backend/routes/auth.py:27 | `\d{n}` consumes n ASCII digits, failing when fewer are present |
| Auth.ValidateMobileAsWritten | backend/routes/auth.py:26-29 | The mobile validator with Python's `$`, which also matches before a final newline |
| Auth.MobileNewlineAccepted | backend/routes/auth.py:27 | "9876543210\n" passes the validator as written but is not a 10-digit number |
| Auth.ValidateMobile | backend/routes/auth.py:26-29 | Accepted iff exactly 10 ASCII digits with the first in 6–9. The input is returned unchanged, or the fixed message is raised |
| Auth.WordRun | backend/routes/auth.py:35 | The longest run of `[a-zA-Z0-9_]` characters at the start |
| Auth.ValidateUsernameAsWritten | backend/routes/auth.py:32-37 | The username validator with Python's `$` |
| Auth.UsernameNewlineAccepted | backend/routes/auth.py:35 | "ab\n" passes the validator as written (3 characters) although "\n" is not a word character |
| Auth.ValidateUsername | backend/routes/auth.py:32-37 | Accepted iff at least 3 characters, all letters, digits or `_`. The length error is reported first |
| Auth.ValidatePassword | backend/routes/auth.py:40-43 | Accepted iff at least 6 characters, returned unchanged |
| Auth.SignupRequestErrors | backend/routes/auth.py:25-43 | A signup body is rejected iff one of the three validators fails |
| Auth.FindBy | backend/routes/auth.py:59-74 | The username and mobile lookups (also used by login) return a stored user holding the value iff one exists |
| Auth.SignupFailure | backend/routes/auth.py:115-125 | A `ValueError` becomes 400, and anything else becomes 500, including the HTTPException 400s raised inside the `try` |
| Auth.LoginOutcome | backend/routes/auth.py:129-168 | A failure is always the same 401 "Invalid username or password". A success carries the id and the username |
| Auth.LoginSucceedsIff | backend/routes/auth.py:141-157 | Login succeeds iff a stored user has that username and the password checks against their hash |
| Auth.LoginAfterSignup | backend/routes/auth.py:89-168 | After a user with a fresh username is added, logging in with a matching password returns that user with their id |
| Auth.FoundLast | backend/routes/auth.py:132-139 | A newly added unique username is found |
| Auth.UserTable.constructor | backend/routes/auth.py:56 | An empty users table |
| Auth.UserTable.Signup | backend/routes/auth.py:56-125 | Username uniqueness is checked before mobile uniqueness, then the date of birth is parsed. Exactly one row is inserted iff all three pass. Duplicates give 500 (the 400 is re-caught), a bad date gives 400, and the response user has no id |
| Auth.UserTable.Login | backend/routes/auth.py:129-176 | Login is the specified outcome over the current table |
| Connection.FirstIndex | backend/database/connection.py:14 | The first occurrence of a pattern, or none |
| Connection.ReplaceFirst | backend/database/connection.py:14 | `str.replace(p, q, 1)` replaces the first occurrence only |
| Connection.Rewrite | backend/database/connection.py:13-14 | A URL starting with "postgres://" gets "postgresql://" in its place and keeps the rest. Any other URL is unchanged |
| Connection.DefaultUsed | backend/database/connection.py:7-10 | Without the environment variable the URL is the local default |
| Connection.RewriteIdempotent | backend/database/connection.py:13-14 | Rewriting twice is rewriting once |
| Connection.RewriteKeepsRest | backend/database/connection.py:13-14 | The rewritten URL starts with "postgresql://" followed by the original remainder |
| LanguageContext.Table | frontend/src/utils/LanguageContext.tsx:16-50 | Each of the en, te and hi tables has exactly the common key set and only non-empty values |
| LanguageContext.LanguageProvider.constructor | frontend/src/utils/LanguageContext.tsx:57 | The initial language is "en" |
| LanguageContext.LanguageProvider.SetLanguage | frontend/src/utils/LanguageContext.tsx:57-61 | The setter replaces the language |
| LanguageContext.LanguageProvider.Value | frontend/src/utils/LanguageContext.tsx:59-63 | The context value carries the current language and exactly that language's table |
| LanguageContext.UseLanguage | frontend/src/utils/LanguageContext.tsx:68-74 | Outside a provider it fails with the fixed message, and inside one it returns the context |
| EligibilityWizard.DigitPrefix | frontend/src/components/EligibilityChecker/EligibilityChecker.tsx:132-190 | The longest leading run of digits |
| EligibilityWizard.ParseInt | frontend/src/components/EligibilityChecker/EligibilityChecker.tsx:132-190 | `parseInt` of an input's text is a number or NaN, and NaN for a cleared field |
| EligibilityWizard.ParseIntRoundTrip | frontend/src/components/EligibilityChecker/EligibilityChecker.tsx:132 | Parsing the decimal text of n gives n |
| EligibilityWizard.ParseIntNegativeRoundTrip | frontend/src/components/EligibilityChecker/EligibilityChecker.tsx:132 | Parsing "-" followed by the text of n gives −n |
| EligibilityWizard.ClearedFieldFalsy | frontend/src/components/EligibilityChecker/EligibilityChecker.tsx:132-267 | A cleared age field holds NaN, which is falsy |
| EligibilityWizard.NumberValue | frontend/src/api/api.ts:62-71 | JSON sends NaN and undefined as absent, and the value counts as set iff it is truthy |
| EligibilityWizard.RequestOf | frontend/src/api/api.ts:62-71 | The request body's gender, age and flags are set exactly when the criteria's are truthy |
| EligibilityWizard.InitialRequestUnfiltered | frontend/src/components/EligibilityChecker/EligibilityChecker.tsx:28-37 | The initial criteria produce no backend filter |
| EligibilityWizard.TransitionsKeepStep | frontend/src/components/EligibilityChecker/EligibilityChecker.tsx:255-267 | Every transition keeps `step` in {1, 2, 3} |
| EligibilityWizard.ForwardGate | frontend/src/components/EligibilityChecker/EligibilityChecker.tsx:255-267 | Leaving step 1 requires a gender and a truthy age. Steps 2 and 3 move freely. There is no Next on step 3 and no Previous on step 1 |
| EligibilityWizard.FalsyAgeBlocks | frontend/src/components/EligibilityChecker/EligibilityChecker.tsx:132-267 | An absent, NaN or 0 age keeps the wizard on step 1 |
| EligibilityWizard.ForwardSendsGender | frontend/src/components/EligibilityChecker/EligibilityChecker.tsx:267 | Past step 1, the request carries the gender filter and a non-zero age |
| EligibilityWizard.BackUndoesForward | frontend/src/components/EligibilityChecker/EligibilityChecker.tsx:255-267 | Previous undoes Next, and Next undoes Previous from step 3 |
| EligibilityWizard.ResetIdempotent | frontend/src/components/EligibilityChecker/EligibilityChecker.tsx:53-67 | Reset gives step 1, the initial criteria, no results and no results view, and resetting twice is resetting once |
| EligibilityWizard.SubmitCycle | frontend/src/components/EligibilityChecker/EligibilityChecker.tsx:39-275 | Submit is inert while loading. A response replaces the results and shows them, a failure changes nothing, and loading ends either way |
| EligibilityWizard.BadgeSlotAsWritten | frontend/src/components/EligibilityChecker/EligibilityChecker.tsx:315 | The badge expression as written, which renders a 0 score as the text "0" |
| EligibilityWizard.BadgeSlot | frontend/src/components/EligibilityChecker/EligibilityChecker.tsx:315 | The badge shows iff the score is over 50, and nothing shows otherwise |
| EligibilityWizard.ZeroScorePrinted | frontend/src/components/EligibilityChecker/EligibilityChecker.tsx:315 | A zero score prints "0" as written, where the intended version shows nothing |
| EligibilityWizard.BadgeSlotsAgree | frontend/src/components/EligibilityChecker/EligibilityChecker.tsx:315 | On every score other than 0 the two agree |
| EligibilityWizard.EligibilityChecker.constructor | frontend/src/components/EligibilityChecker/EligibilityChecker.tsx:23-37 | Step 1, the initial criteria, no results, not loading |
| EligibilityWizard.EligibilityChecker.Next | frontend/src/components/EligibilityChecker/EligibilityChecker.tsx:263-267 | The Next button applies the gated forward step |
| EligibilityWizard.EligibilityChecker.Previous | frontend/src/components/EligibilityChecker/EligibilityChecker.tsx:255-258 | The Previous button steps back |
| EligibilityWizard.EligibilityChecker.Submit | frontend/src/components/EligibilityChecker/EligibilityChecker.tsx:39-275 | Submit sends the criteria's request iff not loading, and sets loading |
| EligibilityWizard.EligibilityChecker.Settled | frontend/src/components/EligibilityChecker/EligibilityChecker.tsx:42-50 | The awaited answer replaces and shows the results, or leaves them, and ends loading |
| EligibilityWizard.EligibilityChecker.ResetForm | frontend/src/components/EligibilityChecker/EligibilityChecker.tsx:53-67 | The reset transition |
| EligibilityWizard.EligibilityChecker.Close | frontend/src/components/EligibilityChecker/EligibilityChecker.tsx:81-84 | The close button resets the wizard |
| EligibilityWizard.EligibilityChecker.SetGender | frontend/src/components/EligibilityChecker/EligibilityChecker.tsx:112 | Only the gender changes |
| EligibilityWizard.EligibilityChecker.SetAge | frontend/src/components/EligibilityChecker/EligibilityChecker.tsx:132 | Only the age changes, to `parseInt` of the text |
| EligibilityWizard.EligibilityChecker.SetLocation | frontend/src/components/EligibilityChecker/EligibilityChecker.tsx:146 | Only the location changes |
| EligibilityWizard.EligibilityChecker.SetOccupation | frontend/src/components/EligibilityChecker/EligibilityChecker.tsx:170 | Only the occupation changes |
| EligibilityWizard.EligibilityChecker.SetAnnualIncome | frontend/src/components/EligibilityChecker/EligibilityChecker.tsx:190 | Only the income changes, to `parseInt` of the text |
| EligibilityWizard.EligibilityChecker.SetCaste | frontend/src/components/EligibilityChecker/EligibilityChecker.tsx:202 | Only the caste changes |
| EligibilityWizard.EligibilityChecker.SetDisability | frontend/src/components/EligibilityChecker/EligibilityChecker.tsx:228 | Only the disability flag changes |
| EligibilityWizard.EligibilityChecker.SetMinority | frontend/src/components/EligibilityChecker/EligibilityChecker.tsx:238 | Only the minority flag changes |
| AuthModal.SignupCheck | frontend/src/components/Auth/AuthModal.tsx:49-62 | Mismatch is checked first, then length < 6, then the mobile pattern. The first failure gives its message, and none fails iff all three pass |
| AuthModal.ClientChecksAgreeWithServer | frontend/src/components/Auth/AuthModal.tsx:59 | The client's mobile test accepts exactly what the server's mobile validator accepts. A form the client sends passes the server's mobile and password checks |
| AuthModal.UsernameUncheckedByClient | frontend/src/components/Auth/AuthModal.tsx:49-73 | A form with a 2-character username passes the client checks and is refused by the server with the length error |
| AuthModal.ThrownText | frontend/src/components/Auth/AuthModal.tsx:81-106 | A thrown error shows its message, or the mode's default when the message is empty |
| AuthModal.FailedCheckOnlySetsError | frontend/src/components/Auth/AuthModal.tsx:46-62 | A failed check sets its message and changes nothing else: no request, no loading change |
| AuthModal.EmptyLoginOnlySetsError | frontend/src/components/Auth/AuthModal.tsx:89-94 | An empty username or password sets the prompt and changes nothing else |
| AuthModal.SettledOutcomes | frontend/src/components/Auth/AuthModal.tsx:64-85 | After a signup request loading is false. Success clears forms and error, a refusal leaves no error, and a thrown error leaves a non-empty error with the form kept |
| AuthModal.LoginOutcomes | frontend/src/components/Auth/AuthModal.tsx:96-110 | The same for login, where a thrown error shows its message or the login default |
| AuthModal.SwitchModeInvolution | frontend/src/components/Auth/AuthModal.tsx:129-132 | Switching flips the mode, keeps both forms and clears the error, and switching twice restores the mode |
| AuthModal.ResetFormsIdempotent | frontend/src/components/Auth/AuthModal.tsx:112-127 | Reset empties every field and the error, and is idempotent |
| AuthModal.AuthDialog.constructor | frontend/src/components/Auth/AuthModal.tsx:23-42 | Login mode, not loading, no error, empty forms |
| AuthModal.AuthDialog.HandleSignUp | frontend/src/components/Auth/AuthModal.tsx:44-85 | A request (the form without `confirmPassword`) is sent iff the checks pass. The user is handed over iff the response has `success`. The dialog state follows the specified transition |
| AuthModal.AuthDialog.HandleLogin | frontend/src/components/Auth/AuthModal.tsx:87-110 | A request is sent iff both fields are non-empty, and the user is handed over iff the response has `success` |
| AuthModal.AuthDialog.ResetForms | frontend/src/components/Auth/AuthModal.tsx:112-127 | Empties both forms and the error |
| AuthModal.AuthDialog.SwitchMode | frontend/src/components/Auth/AuthModal.tsx:129-132 | Flips the mode and clears the error |
| AuthModal.AuthDialog.Close | frontend/src/components/Auth/AuthModal.tsx:146-149 | The close button resets the forms |
| AuthModal.AuthDialog.EditSignup | frontend/src/components/Auth/AuthModal.tsx:177-270 | Only the signup form changes |
| AuthModal.AuthDialog.EditLogin | frontend/src/components/Auth/AuthModal.tsx:302-316 | Only the login form changes |
| ChatWindow.WelcomeFor | frontend/src/components/Chatbot/Chatbot.tsx:29-69 | The welcome text of te or hi, and English for any other code |
| ChatWindow.ErrorFor | frontend/src/components/Chatbot/Chatbot.tsx:205-207 | The apology is English exactly for en, Telugu exactly for te, and Hindi otherwise |
| ChatWindow.SpeechCode | frontend/src/components/Chatbot/Chatbot.tsx:88-135 | en/te/hi map to en-IN/te-IN/hi-IN, with en-IN as fallback |
| ChatWindow.QuickSearchIsTypeThenSend | frontend/src/components/Chatbot/Chatbot.tsx:155-162 | A quick search with a non-empty query is typing the query and sending it. With an empty query the previously typed text is sent |
| ChatWindow.SendEffect | frontend/src/components/Chatbot/Chatbot.tsx:160-214 | An accepted send appends the user message and then one bot message, keeps every earlier message, and leaves the input empty and loading false. A refused send changes nothing |
| ChatWindow.ReplyOrApology | frontend/src/components/Chatbot/Chatbot.tsx:189-210 | The bot message is the reply with its schemes, or the localized apology without schemes |
| ChatWindow.ArgumentPriority | frontend/src/components/Chatbot/Chatbot.tsx:161 | A non-empty argument wins over the input, and an absent or empty one falls back to it |
| ChatWindow.SendGuards | frontend/src/components/Chatbot/Chatbot.tsx:162 | A blank text or a request in flight leaves everything unchanged |
| ChatWindow.SeedOnce | frontend/src/components/Chatbot/Chatbot.tsx:64-73 | Opening on an empty transcript seeds exactly the welcome. A non-empty or closed one is untouched. Seeding twice is seeding once |
| ChatWindow.StepAppends | frontend/src/components/Chatbot/Chatbot.tsx:171-210 | Every event keeps the transcript as a prefix and does not leave loading on |
| ChatWindow.ReplayAppendOnly | frontend/src/components/Chatbot/Chatbot.tsx:171-210 | Over any sequence of events the transcript is append-only and loading ends false |
| ChatWindow.ChatAssistant.constructor | frontend/src/components/Chatbot/Chatbot.tsx:19-21 | An empty transcript, empty input, not loading |
| ChatWindow.ChatAssistant.OpenEffect | frontend/src/components/Chatbot/Chatbot.tsx:64-73 | The welcome-seeding effect |
| ChatWindow.ChatAssistant.SetInputText | frontend/src/components/Chatbot/Chatbot.tsx:380 | Only the input changes |
| ChatWindow.ChatAssistant.SendMessage | frontend/src/components/Chatbot/Chatbot.tsx:160-214 | One request carrying the text and language is sent iff the send is accepted, and the state follows the send transition |
| ChatWindow.ChatAssistant.HandleQuickSearch | frontend/src/components/Chatbot/Chatbot.tsx:155-158 | Sends iff the send is accepted. For a non-empty query that means the query is not blank and no request is in flight |
| App.Restore | frontend/src/App.tsx:31-41 | The mount effect touches only the user and the stored key |
| App.RestoreCases | frontend/src/App.tsx:31-41 | A missing key leaves nobody signed in. A parsable value becomes the user. An unparsable one is removed and nobody is signed in |
| App.SignInSurvivesReload | frontend/src/App.tsx:35-51 | Signing in and reloading brings back the same user, when parse inverts serialize |
| App.SignOutSurvivesReload | frontend/src/App.tsx:53-56 | After signing out the key is gone and a reload restores nobody |
| App.SessionKeepsOtherKeys | frontend/src/App.tsx:48-56 | Sign-in and sign-out change no other storage key |
| App.AppShell.constructor | frontend/src/App.tsx:23-28 | Nobody signed in, every dialog closed, storage as found |
| App.AppShell.LoadUser | frontend/src/App.tsx:31-41 | The restore transition |
| App.AppShell.HandleAuthSuccess | frontend/src/App.tsx:48-51 | Sets the user and stores its serialization under "sahayataUser" |
| App.AppShell.HandleLogout | frontend/src/App.tsx:53-56 | Clears the user and removes the key |
| App.AppShell.HandleSchemeClick | frontend/src/App.tsx:43-46 | Selects the scheme and opens the details dialog, with nothing else changed |
| App.AppShell.CloseSchemeDetails | frontend/src/App.tsx:163-166 | Closes the details dialog and forgets the scheme |
| App.AppShell.SetEligibilityOpen | frontend/src/App.tsx:78-156 | Only the eligibility flag changes |
| App.AppShell.SetAuthOpen | frontend/src/App.tsx:62-149 | Only the sign-in flag changes |
| App.AppShell.SetChatbotOpen | frontend/src/App.tsx:128-143 | Only the chat flag changes |
| Text.SplitSpace | frontend/src/components/Header/Header.tsx:49 | `split(' ')` yields at least one piece, none containing a space, all made of the name's characters |
| Text.SplitJoin | frontend/src/components/Header/Header.tsx:49 | Joining the pieces with spaces gives back the name |
| Header.Words | frontend/src/components/Header/Header.tsx:49 | The non-empty pieces |
| Header.WordsOfWords | frontend/src/components/Header/Header.tsx:49 | Without empty pieces, the words are the pieces |
| Header.InitialsAsWritten | frontend/src/components/Header/Header.tsx:46-54 | `getUserInitials` as written gives "U" without a name |
| Header.Initials | frontend/src/components/Header/Header.tsx:46-54 | The intended initials: 1 or 2 non-space characters of the name, or "U" |
| Header.InitialsAgree | frontend/src/components/Header/Header.tsx:48-53 | On names without leading, trailing or doubled spaces the two agree: "U", two first letters, or the first two characters |
| Text.SplitTrailingSpace | frontend/src/components/Header/Header.tsx:49 | A word followed by one space splits into the word and an empty piece |
| Header.TrailingSpaceInitials | frontend/src/components/Header/Header.tsx:49-52 | "Ravi " shows "Rundefined" as written, where "Ra" is intended |
| Header.BlankNameInitials | frontend/src/components/Header/Header.tsx:49-52 | " " shows "NaN" as written, where "U" is intended |
| Header.SearchShowsBackendAnswer | frontend/src/components/Header/Header.tsx:29-44 | A successful search shows exactly the endpoint's schemes, and the heading count equals the endpoint's `count`. The empty state shows iff no scheme matched |
| Header.OneLetterQueryRefused | frontend/src/components/Header/Header.tsx:31-42 | A one-letter query is sent, refused by the endpoint, and leaves the overlay as it was |
| Header.BlankQueryIgnored | frontend/src/components/Header/Header.tsx:31 | A query of white space sends nothing and changes nothing |
| Header.ResultNameMatchesDetails | frontend/src/components/Header/Header.tsx:275-277 | The name a search result shows for a stored scheme is the name the details panel shows for it once loaded |
| Header.HeaderBar.constructor | frontend/src/components/Header/Header.tsx:23-27 | Empty query, no results, overlay and menu closed |
| Header.HeaderBar.SetSearchQuery | frontend/src/components/Header/Header.tsx:23 | Only the query changes |
| Header.HeaderBar.HandleSearch | frontend/src/components/Header/Header.tsx:29-44 | One request with the query and language is sent iff the trimmed query is non-empty. The state follows the search transition |
| Header.HeaderBar.CloseResults | frontend/src/components/Header/Header.tsx:240 | Hides the overlay |
| Header.HeaderBar.ToggleProfileMenu | frontend/src/components/Header/Header.tsx:146 | Flips the profile menu |
| Header.HeaderBar.PickLanguage | frontend/src/components/Header/Header.tsx:111-131 | A language button sets the provider's language |
| Header.HeaderBar.Logout | frontend/src/components/Header/Header.tsx:199-203 | The menu closes and the root component signs out |
| Header.HeaderBar.ChooseResult | frontend/src/components/Header/Header.tsx:263-268 | Opens the scheme's details in the root component and hides the overlay |
| SchemeDetails.Pick | frontend/src/components/SchemeDetails/SchemeDetails.tsx:62-95 | "" before a scheme is loaded, otherwise the column chosen by the shared language rule |
| SchemeDetails.GettersAgree | frontend/src/components/SchemeDetails/SchemeDetails.tsx:62-95 | All five getters give "" without a scheme and select the same language's column of the same scheme |
| SchemeDetails.FetchGuard | frontend/src/components/SchemeDetails/SchemeDetails.tsx:39-60 | Nothing happens unless the panel is open on a truthy id. A fetch ends loading and replaces the scheme, or keeps the old one on failure |
| SchemeDetails.DetailsPanel.constructor | frontend/src/components/SchemeDetails/SchemeDetails.tsx:36-37 | No scheme, not loading |
| SchemeDetails.DetailsPanel.FetchEffect | frontend/src/components/SchemeDetails/SchemeDetails.tsx:39-58 | Fetches the id iff the panel is open on a truthy id, and follows the fetch transition |
| Sorting.SortPermutes | backend/routes/schemes.py:459 | The sort returns a permutation of its input |
| Sorting.SortSorted | backend/routes/schemes.py:459 | The sort returns non-increasing keys |
| Sorting.SortLex | backend/routes/chatbot.py:159 | Sorting an id-ordered list by score gives "score descending, then id ascending" |
| Sorting.PrefixDominates | backend/routes/schemes.py:464 | In a sorted list, a kept prefix element outranks every cut element |

## Left out

- **SQL engine.** SQLAlchemy sessions, transactions (`commit`, `rollback`), connection failures, `get_db`, `test_connection` and the engine setup are not modelled. A failed request from the client is the caller's `None`/`Thrown` input. A database failure inside the chatbot's search is the `failed` input of `Chatbot.SearchDatabase`, which answers `[]`.
- **LIKE wildcards.** `%` and `_` inside user input act as ordinary characters here.
- **NULL columns.** A missing text column is the empty string. In SQL, `LOWER(NULL) LIKE '%%'` is not true. So for a query that strips to nothing, the model lets such a column match, and `Chatbot.RowScore` gives the row its points, where the database would not.
- **Scan order.** Two queries have a `LIMIT` but no `ORDER BY`: the eligibility query with no criteria and the search query. PostgreSQL decides which rows they return and in what order. The stable sort after the eligibility query keeps that order among equal scores. The model fixes the scan order to the table's order, both for which rows are kept and for their order.
- **The chatbot keyword clause.** It is interpolated into the SQL text, so a keyword containing a quote could change the query. Keywords come from fixed tables, so this cannot happen in the model.
- **Case folding.** `lower()` is modelled on ASCII letters only. Telugu and Hindi text has no case, and other non-ASCII letters are left unchanged.
- **Python `re`.** `\d` matches any Unicode decimal digit in Python 3, but it is modelled as ASCII 0–9.
- **String length.** JavaScript counts UTF-16 code units and Python counts code points. Both are modelled as the sequence length.
- **White space.** `trim()` and `strip()` are modelled as removing exactly six characters: space, tab, line feed, carriage return, vertical tab and form feed. Python's `strip()` also removes the separators U+001C to U+001F and the Unicode spaces. JavaScript's `trim()` also removes U+00A0, U+FEFF and the Unicode spaces. Those characters are kept in the model.
- **`parseInt` forms.** `parseInt` is modelled for optional leading white space, an optional sign and decimal digits. The `0x` prefix is not modelled. Numbers typed with exponents or fractions are cut at the first non-digit, as `parseInt` does.
- **HTML form validation.** `required` and `type="date"` run before the submit handlers. The handlers are modelled as if that validation let everything through.
- **bcrypt, `strptime` and JSON.** These are parameters. `App.SignInSurvivesReload` takes the round trip of `serialize`/`parse` as a hypothesis.
- **JSON values that are not objects.** `JSON.parse` of such a text (for example `"null"`) succeeds without a user. The model's `parse` answers either a user or a failure.
- **The user records.** The client's `User` type and the backend's user dictionary are one record, `Auth.UserInfo`, whose id is optional.
- **Rendering.** Markup, class names, the quick-category tables, the statistics cards, the category grid, the footer and the search-results page are presentational and not modelled. Category browsing (`get_by_category`), the details endpoint (`get_scheme_detail`), `/api/chatbot/stats` and the hard-coded statistics route are outside the modelled core.
- **Browser facilities.** Speech recognition and synthesis (`isListening`, `isSpeaking`, `speakText`), `scrollIntoView`, `alert`, `console`, and the `Date.now()` ids and timestamps of chat messages are not modelled. The scheme overlay inside the chat window is not modelled either.
- **React timing.** Each handler is one atomic step, and its awaited call's outcome is an input. Interleavings between an `await` and other events are not modelled, nor are updates after unmount. The one stale closure that matters, in `handleQuickSearch`, is modelled.
- **Statistics.** The per-category `GROUP BY` counts of `get_statistics` are not modelled. Only the total/AP/central arithmetic is.
- **`api.ts`.** The modules call it but it is not modelled. The client's error text from a failed request is the `Thrown(message)` input. The shape of FastAPI's 422 `detail` lists is not modelled.
- **Optional callbacks.** `onSchemeClick` and `onLogout` are optional props of the header. The model assumes the root component passes both, as it does.
- SchemeDetails.DetailsPanel.GetSchemeName: this getter and the other four on the panel have no contract of their own. They are `SchemeDetails.Pick` on the current scheme, and `SchemeDetails.GettersAgree` states their meaning.
- Chatbot.SearchResults: its own contract states only the length bound. The order and membership properties are in `Chatbot.SearchResultsSpec`.
- Schemes.GetStatistics: the AP condition is modelled on the scheme type and English name columns as written. The count is the number of matching rows in the table.

## Findings

| source | as written | input that shows it | evidently intended | confidence | as-written member | corrected member |
|---|---|---|---|---|---|---|
| backend/routes/auth.py:27 | `re.match(r'^[6-9]\d{9}$', v)` accepts a number followed by a newline, because Python's `$` also matches before a final "\n" | "9876543210\n" | exactly ten digits, first in 6–9 (`re.fullmatch` or `\Z`) | not executed | Auth.MobileNewlineAccepted | Auth.ValidateMobile |
| backend/routes/auth.py:35 | `re.match(r'^[a-zA-Z0-9_]+$', v)` accepts a username followed by a newline | "ab\n" | letters, digits and `_` only | not executed | Auth.UsernameNewlineAccepted | Auth.ValidateUsername |
| frontend/src/components/EligibilityChecker/EligibilityChecker.tsx:315 | `{scheme.relevance_score && …}` renders the number 0 when the score is 0 | a result with `relevance_score` 0 | nothing rendered unless the score exceeds 50 | not executed | EligibilityWizard.ZeroScorePrinted | EligibilityWizard.BadgeSlot |
| frontend/src/components/Header/Header.tsx:49-52 | `names[0][0] + names[1][0]` reads past an empty piece from a leading, trailing or doubled space | name "Ravi " gives "Rundefined"; name " " gives "NaN" | first letters of the first two non-empty words, or "U" | not executed | Header.TrailingSpaceInitials | Header.Initials |
