# Books scraper: ScrapeOps middlewares and the cleaning pipeline

This is a Dafny model of the request and item handling of a Scrapy project that scrapes
books.toscrape.com. It covers the following parts.

- **ScrapeOps fake user agent middleware.** It gives each outgoing request a
  `User-Agent` picked at random from a pool fetched when the middleware starts.
- **ScrapeOps fake browser headers middleware.** It picks one whole browser header set
  from a fetched pool and overlays it on a request's headers.
- **ScrapeOps proxy middleware.**
  - It rewrites each request into a call to the ScrapeOps proxy endpoint. The query
    string carries the API key, the target URL and one parameter for each `sops_*`
    flag the request's metadata switches on.
  - It stashes the original URL in an `X-Original-URL` request header.
  - On the way back it gives the response that URL again.
  - A request that already points at the endpoint passes through unchanged.
- **The item pipeline `ProjectScrapyPipeline`.** It cleans a scraped `BookItem` in place,
  in this order:
  - `price`, `price_tax` and `tax` become `float`s after the `£` is removed;
  - `availability` becomes the first run of digits in its text, as an `int`;
  - `number_of_reviews` becomes an `int`.
  The first cleaner that raises stops the item.
- **The `BookItem` record.** It has ten fields.
- **The spider's start request metadata.** It is the one real input to the proxy flags.
- **The project settings.** They build the two middlewares that are switched on.

Module layout:
- **Wrappers** holds `Option`, `Result`, the step `Outcome`, and the Python exception
  kinds the code can raise.
- **Text** holds the Python string builtins the code relies on: `str.lower()`,
  `in` on strings, `str.replace(c, '')`, `int()`, `float()`, `re.search(r'(\d+)')`
  and `str(int)`.
  - `int()` and `float()` strip the white space CPython strips: tab to carriage return,
    space, and the white space characters above ASCII (0x85, 0xA0, 0x1680,
    0x2000-0x200A, 0x2028, 0x2029, 0x202F, 0x205F, 0x3000). The separators 0x1C-0x1F
    are not stripped.
  - `int()` of text stops at 4300 digits, the default limit of
    `sys.get_int_max_str_digits()`; a longer numeral raises `ValueError`. `str` of an
    int is modelled without that limit.
  - `float()` is modelled over exact reals, with `inf` and `nan` kept apart.
  - `int()` of a float truncates toward zero. It raises `OverflowError` on an infinity
    and `ValueError` on a NaN.
- **Json** models `json.dumps` of the JS scenario.
- **Randomness** models `random.randint`. The random choice is left unconstrained
  inside its bounds.
- **Http** holds Scrapy's `Request` (a class, because the middlewares update its
  headers in place) and `Response` (a value).
- **Items**, **Pipelines**, **Middlewares**, **BookSpider** and **ProjectSettings**
  follow the project's own files.

Each pipeline cleaner is a method on the mutable item. Its contract ties the new item
and its outcome to the function `ApplyStep` of the old item. `process_item` is proved
against `Process`, which runs the five steps in order. Lemmas then show what `Process`
means:
- it stops at the first field whose cleaning fails, with that field's exception;
- it succeeds exactly when every field cleans;
- it never touches the five descriptive fields;
- running it twice on a cleaned item fails.

The header middleware's loop is proved to overlay the chosen header set, with the last
value for a name winning. The proxy URL is tied to the flag table. Lemmas state exactly
which parameters appear, under which names and with which values.

Some behaviour of the code is easy to misread. The model keeps it as written:
- **Exceptions raised by the cleaners.** A missing or malformed field raises a
  different exception in each case:
  - `AttributeError` from `.replace` on a price field that is not text (`None`, for
    one), and from `.group` on `None` when an availability text has no digit;
  - `TypeError` from `re.search` and `int()` on `None`;
  - `ValueError` from text that `float()` or `int()` cannot parse.
- **A partly filled item.** An item holding only price, availability and
  number_of_reviews fails at `price_tax` with `AttributeError` (pipelines.py:22):
  `process_item` also cleans `price_tax` and `tax`, and `None` has no `replace`.
- **Which flag values count as true.** `_param_is_true` accepts the boolean `True` as
  well as the text `"true"` in any letter case.
- **`sops_follow_redirects`.** When this flag is on, the code sends
  `follow_redirects=False` (middlewares.py:398), the opposite of the flag's name. It is
  kept as written (`PayloadValues`). Whether it is intended cannot be told from the
  code, so it is not listed under Findings.

## Model

| member | source | states |
|---|---|---|
| Randomness.RandInt | project_scrapy/middlewares.py:347 | `randint(lo, hi)` succeeds exactly when `lo <= hi`, returns a value between the bounds inclusive, and raises `ValueError` otherwise |
| Http.Request.constructor | project_scrapy/middlewares.py:491 | a new request holds exactly the given URL, headers and meta |
| Json.Escape | project_scrapy/middlewares.py:371 | the body `dumps` writes for a string with ASCII escaping: each character in turn: printable ASCII as itself, except the quote and the backslash, which get a backslash; newline, carriage return, tab, backspace and form feed as short escapes; any other character as `\uXXXX`, with a surrogate pair above U+FFFF |
| Json.String | project_scrapy/middlewares.py:371 | a JSON string: the escaped body between double quotes |
| Json.PrintableAppend | project_scrapy/middlewares.py:371 | joining two printable-ASCII texts gives printable ASCII |
| Json.EscapeCharPrintable | project_scrapy/middlewares.py:371 | `dumps` with ASCII escaping writes every character of a string as printable ASCII |
| Json.ConcatPrintable | project_scrapy/middlewares.py:371 | concatenating printable-ASCII pieces gives printable ASCII |
| Json.EscapePrintable | project_scrapy/middlewares.py:371 | an escaped JSON string body is printable ASCII whatever the input text |
| Json.StringPrintable | project_scrapy/middlewares.py:371 | a JSON string is printable ASCII whatever the text |
| Json.IntPrintable | project_scrapy/middlewares.py:371 | a JSON number written for an int is printable ASCII |
| Json.MemberPrintable | project_scrapy/middlewares.py:371 | a one-member object `{"key": value}` is printable ASCII when its value is |
| Json.JoinPrintable | project_scrapy/middlewares.py:371 | elements joined with `, ` are printable ASCII when each element is |
| Json.ListPrintable | project_scrapy/middlewares.py:371 | a JSON array is printable ASCII when each element is |
| Text.Lower | project_scrapy/middlewares.py:330 | `str.lower()`: each character mapped on its own, ASCII capitals to small letters |
| Text.Contains | project_scrapy/middlewares.py:486 | `sub in s`: some slice of `s` equals `sub` |
| Text.LowerAt | project_scrapy/middlewares.py:330 | `lower()` keeps the length and maps each character on its own |
| Text.LowerIsTrue | project_scrapy/middlewares.py:330 | `s.lower() == 'true'` exactly for the sixteen letter-case spellings of "true" |
| Text.LowerEquals | project_scrapy/middlewares.py:330 | `s.lower() == w` exactly when the lengths agree and each character lowers to `w`'s character at its position |
| Text.TrueSpellings | project_scrapy/middlewares.py:330 | the characters that lower position by position to "true" are `t`/`T`, `r`/`R`, `u`/`U`, `e`/`E` |
| Text.LowerCharIs | project_scrapy/middlewares.py:330 | a character lowers to a small letter exactly when it is that letter or its capital |
| Text.ContainsIff | project_scrapy/middlewares.py:486 | `sub in s` holds exactly when `sub` occurs at some position of `s` |
| Text.PrefixContained | project_scrapy/middlewares.py:411 | a text is contained in any text it begins |
| Text.RemoveAll | project_scrapy/pipelines.py:22 | `replace(c, '')` keeps every other character with its multiplicity and removes every `c` |
| Text.RemoveAllAppend | project_scrapy/pipelines.py:22 | removing a character distributes over concatenation |
| Text.RemoveAllAbsent | project_scrapy/pipelines.py:22 | removing a character that does not occur changes nothing |
| Text.IntToString | project_scrapy/middlewares.py:411 | `str(n)`, as `urlencode` writes the session number and the cost (and `dumps` the scenario numbers at line 371): a minus sign before the digits of the magnitude of a negative number |
| Text.IsSpace | project_scrapy/pipelines.py:22 | the characters `int()` and `float()` strip: tab to carriage return, space, and the white space above ASCII; not 0x1C-0x1F |
| Text.Strip | project_scrapy/pipelines.py:22 | removes those characters at both ends |
| Text.ParseInt | project_scrapy/pipelines.py:43 | `int(text)`: stripped text, an optional sign and a digit part with single underscores between digits of at most 4300 digits; `None` where Python raises `ValueError` |
| Text.NatToStringDigits | project_scrapy/pipelines.py:43 | `str(n)` of a natural number is a non-empty digit string whose value is `n` |
| Text.StripNoSpace | project_scrapy/pipelines.py:43 | stripping whitespace leaves a text without whitespace unchanged |
| Text.DigitsParse | project_scrapy/pipelines.py:43 | `int()` of a digit string of at most 4300 digits is its decimal value |
| Text.DigitsOverLimit | project_scrapy/pipelines.py:43 | `int()` of a digit string of more than 4300 digits raises `ValueError` |
| Text.NegativeParse | project_scrapy/pipelines.py:43 | `int('-' + digits)` is the negated value, for at most 4300 digits |
| Text.NegativeUnstripped | project_scrapy/pipelines.py:43 | a minus sign followed by digits has no white space to strip |
| Text.NegativeDigitsSigned | project_scrapy/pipelines.py:43 | signed parsing of `-` and at most 4300 digits gives the negated value |
| Text.NegativeSigned | project_scrapy/pipelines.py:43 | a leading minus negates the unsigned parse of at most 4300 digits |
| Text.DigitsUnsigned | project_scrapy/pipelines.py:43 | an unsigned digit string of at most 4300 digits parses to its value |
| Text.ParseIntToString | project_scrapy/pipelines.py:43 | `int(str(n)) == n` for every integer `str` prints, that is of at most 4300 digits |
| Text.NegativeRoundTrip | project_scrapy/pipelines.py:43 | `int(str(n)) == n` for a negative integer of at most 4300 digits |
| Text.ParseFloat | project_scrapy/pipelines.py:22 | `float(text)`: stripped text, an optional sign, then `inf`/`infinity`/`nan` in any case or a decimal literal with optional exponent, taken as an exact real; `None` where Python raises `ValueError` |
| Text.Pow10 | project_scrapy/pipelines.py:22 | powers of ten are positive |
| Text.IndexOf | project_scrapy/pipelines.py:22 | returns the first position of a character, or the length when it is absent |
| Text.ExponentIndex | project_scrapy/pipelines.py:22 | returns the first position of `e` or `E`, or the length when there is none |
| Text.DigitsArePart | project_scrapy/pipelines.py:22 | a plain digit string is a valid digit part of a float literal with the same value |
| Text.NumberWithoutExponent | project_scrapy/pipelines.py:22 | a literal without an exponent has the mantissa's value |
| Text.ExponentIndexNone | project_scrapy/pipelines.py:22 | without `e`/`E` the exponent search reaches the end |
| Text.IndexOfFirst | project_scrapy/pipelines.py:22 | the first occurrence is what `IndexOf` finds |
| Text.IndexOfNone | project_scrapy/pipelines.py:22 | an absent character is found at the end |
| Text.MantissaDecimal | project_scrapy/pipelines.py:22 | `whole.fraction` has the value whole + fraction / 10^len(fraction) |
| Text.ParseFloatDecimal | project_scrapy/pipelines.py:22 | `float('W.F')` on digit strings is the finite decimal W.F |
| Text.DecimalUnstripped | project_scrapy/pipelines.py:22 | a decimal literal has no surrounding whitespace and no sign |
| Text.DecimalUnsigned | project_scrapy/pipelines.py:22 | an unsigned decimal literal parses to its decimal value |
| Text.MantissaDigits | project_scrapy/pipelines.py:22 | a digit string as a mantissa has its integer value |
| Text.UnsignedDigits | project_scrapy/pipelines.py:22 | a digit string parses as a float of its value, negated when signed |
| Text.ParseFloatInt | project_scrapy/pipelines.py:22 | `float(str(n)) == n` for every integer, with the model's unlimited `str` |
| Text.NatFloat | project_scrapy/pipelines.py:22 | `float(str(n)) == n` for a natural number, with the model's unlimited `str` |
| Text.NegativeFloat | project_scrapy/pipelines.py:22 | `float(str(n)) == n` for a negative integer |
| Text.NegativeIntString | project_scrapy/pipelines.py:22 | `str(n)` of a negative integer is a minus sign followed by the digits of its magnitude |
| Text.NegativeDigitsFloat | project_scrapy/pipelines.py:22 | `float('-' + digits)` is the negated value of the digits |
| Text.NegativeDigitsSignedFloat | project_scrapy/pipelines.py:22 | a minus sign before digits, with nothing to strip, is the negated float of the digits |
| Text.NegativeSignedFloat | project_scrapy/pipelines.py:22 | a leading minus selects the negated unsigned parse |
| Text.IntStringUnstripped | project_scrapy/pipelines.py:22 | `str(n)` carries no whitespace to strip |
| Text.SearchDigits | project_scrapy/pipelines.py:38 | `re.search(r'(\d+)', s).group(0)`: the run of digits that starts at the first digit of `s`, `None` when there is no digit |
| Text.LeadingDigits | project_scrapy/pipelines.py:38 | returns the longest run of digits at the start of a text |
| Text.SearchDigitsNone | project_scrapy/pipelines.py:38 | `re.search(r'(\d+)', s)` finds nothing exactly when `s` has no digit |
| Text.SearchDigitsLeftmost | project_scrapy/pipelines.py:38 | a match is the leftmost maximal run of digits |
| Text.LeftmostDigitRunFound | project_scrapy/pipelines.py:38 | the leftmost maximal digit run is the match, so the match is unique |
| Items.Set | project_scrapy/items.py:9-19 | assigning a field sets that field and leaves the other nine unchanged |
| Items.BookByFields | project_scrapy/items.py:9-19 | items that agree on all ten fields are equal |
| Items.BookItem.constructor | project_scrapy/items.py:9-19 | a new item has no field assigned |
| Items.BookItem.GetField | project_scrapy/pipelines.py:21 | `adapter.get(col)` returns the field's current value |
| Items.BookItem.SetField | project_scrapy/pipelines.py:22 | `adapter[col] = v` changes that field only |
| Pipelines.CleanCurrencyValue | project_scrapy/pipelines.py:19-23 | `float(v.replace('£', ''))`: text loses every `£` and is parsed as a float, failing with `ValueError`; anything else has no `replace` and fails with `AttributeError` |
| Pipelines.CleanAvailabilityValue | project_scrapy/pipelines.py:35-39 | `int(re.search(r'(\d+)', v).group(0))`: the first digit run of text as an int; `AttributeError` when there is none, `TypeError` when `v` is not text |
| Pipelines.Truncate | project_scrapy/pipelines.py:43 | `int(x)` of a finite float, rounding toward zero |
| Pipelines.CleanReviewsValue | project_scrapy/pipelines.py:41-44 | `int(v)`: text parsed, an int kept, a finite float truncated, an infinity `OverflowError`, NaN and bad text `ValueError`, `None` `TypeError` |
| Pipelines.ApplyStep | project_scrapy/pipelines.py:19-44 | one cleaner: on success the field is overwritten with the cleaned value, on an exception the item is left as it was |
| Pipelines.RunSteps | project_scrapy/pipelines.py:47-53 | cleaners in order; the first exception ends the run, keeping the earlier rewrites |
| Pipelines.Process | project_scrapy/pipelines.py:47-53 | `process_item`: price, price_tax, tax, availability, number_of_reviews |
| Pipelines.ProcessStep | project_scrapy/pipelines.py:47-53 | after step `j` of `process_item`, `Process` either has stopped with that step's result or continues with the remaining steps |
| Pipelines.FieldResults | project_scrapy/pipelines.py:47-53 | lists one cleaning result for each of the five cleaned fields, in process order |
| Pipelines.FirstFailure | project_scrapy/pipelines.py:47-53 | returns the index of the first failing result; every earlier one succeeds |
| Pipelines.CleanedUpToFields | project_scrapy/pipelines.py:47-53 | after the first `k` cleaners, those fields hold their cleaned values and every other field is unchanged |
| Pipelines.StepIsCleaner | project_scrapy/pipelines.py:47-53 | step `j` of `process_item` cleans the `j`-th cleaned field, with that field's cleaner |
| Pipelines.ProcessFrom | project_scrapy/pipelines.py:47-53 | until the first failure, `process_item` is the earlier fields cleaned, followed by the rest of the steps |
| Pipelines.ProcessFirstFailure | project_scrapy/pipelines.py:47-53 | `process_item` raises the first failing field's exception, with exactly the fields before it cleaned; if none fails, every cleaned field holds its cleaned value |
| Pipelines.ProcessSucceedsIff | project_scrapy/pipelines.py:47-53 | `process_item` returns the item exactly when all five fields clean, and then each holds its cleaned value |
| Pipelines.RunKeepsOtherColumns | project_scrapy/pipelines.py:19-44 | steps that clean other fields never change a field |
| Pipelines.ProcessKeepsColumn | project_scrapy/pipelines.py:47-53 | a field `process_item` does not clean keeps its value, whether or not the item fails |
| Pipelines.ProcessKeepsDescriptiveFields | project_scrapy/pipelines.py:47-53 | title, image, description, UPC and product type pass through unchanged |
| Pipelines.ProcessNotRepeatable | project_scrapy/pipelines.py:22 | a cleaned item fails a second pass with `AttributeError`, since a float has no `replace` |
| Pipelines.CurrencyErrors | project_scrapy/pipelines.py:19-23 | the currency cleaner raises `AttributeError` exactly on a field that is not text, raises only `ValueError` on text, and stores a float on success |
| Pipelines.CurrencyPounds | project_scrapy/pipelines.py:19-23 | `£W.P` becomes the float W.P |
| Pipelines.PoundSignRemoved | project_scrapy/pipelines.py:22 | removing `£` from `£` + body gives the body |
| Pipelines.CurrencyWholePounds | project_scrapy/pipelines.py:19-23 | `£n`, written with the model's unlimited `str`, becomes the float `n` for every integer `n` |
| Pipelines.AvailabilityFirstNumber | project_scrapy/pipelines.py:35-39 | availability text becomes the value of its leftmost maximal run of digits; a run of more than 4300 digits raises `ValueError` |
| Pipelines.AvailabilityErrors | project_scrapy/pipelines.py:35-39 | the availability cleaner raises `TypeError` exactly on a field that is not text; on text it raises `AttributeError` exactly when there is no digit, and `ValueError` exactly when the first digit run is longer than 4300 digits |
| Pipelines.TruncateTowardZero | project_scrapy/pipelines.py:43 | `int()` of a float rounds toward zero, lying within one of the float |
| Pipelines.ReviewsRoundTrip | project_scrapy/pipelines.py:41-44 | `str(n)` as the review count cleans to `n`, for every `n` that `str` prints (at most 4300 digits) |
| Pipelines.ReviewsIdempotent | project_scrapy/pipelines.py:41-44 | cleaning a cleaned review count gives the same result |
| Pipelines.PriceExample | project_scrapy/pipelines.py:19-23 | `£51.77` becomes 51.77 |
| Pipelines.PenceExample | project_scrapy/pipelines.py:22 | the decimal of 51 and 77 with two places is 51.77 |
| Pipelines.AvailabilityExample | project_scrapy/pipelines.py:35-39 | `In stock (19 available)` becomes 19 |
| Pipelines.AvailabilityRun | project_scrapy/pipelines.py:38 | the leftmost digit run of `In stock (19 available)` is `19` at position 10 |
| Pipelines.ReviewsExample | project_scrapy/pipelines.py:41-44 | `"0"` becomes 0 |
| Pipelines.ProjectScrapyPipeline.CleanCurrency | project_scrapy/pipelines.py:19-23 | updates the item as the currency step on its old value and returns the same item |
| Pipelines.ProjectScrapyPipeline.CleanPrice | project_scrapy/pipelines.py:25-26 | the currency step on `price` |
| Pipelines.ProjectScrapyPipeline.CleanPriceTax | project_scrapy/pipelines.py:28-29 | the currency step on `price_tax` |
| Pipelines.ProjectScrapyPipeline.CleanTax | project_scrapy/pipelines.py:31-32 | the currency step on `tax` |
| Pipelines.ProjectScrapyPipeline.CleanAvailability | project_scrapy/pipelines.py:35-39 | updates the item as the availability step on its old value |
| Pipelines.ProjectScrapyPipeline.CleanNumberOfReviews | project_scrapy/pipelines.py:41-44 | updates the item as the review-count step on its old value |
| Pipelines.ProjectScrapyPipeline.ProcessItem | project_scrapy/pipelines.py:47-53 | the new item and the outcome are `Process` of the old item, which the lemmas above characterise |
| Middlewares.CheckedActiveAsWritten | project_scrapy/middlewares.py:117-119 | the enable check as written always leaves the middleware active (lines 240-242 are the same) |
| Middlewares.CheckedActive | project_scrapy/middlewares.py:117-119 | the corrected check is active exactly when the API key is non-empty and the setting is on |
| Middlewares.EnableCheckIgnoresSettings | project_scrapy/middlewares.py:240-242 | with no key, or a disabled setting, the check as written still reports active and the corrected one does not |
| Middlewares.Overlay | project_scrapy/middlewares.py:255-257 | `headers[key] = val` for each entry of a header set, in order |
| Middlewares.HeaderNamesSnoc | project_scrapy/middlewares.py:256-257 | the names of a header set grow by one name per entry |
| Middlewares.OverlayEffect | project_scrapy/middlewares.py:255-257 | overlaying a header set adds exactly its names, keeps every other header and leaves each name with its last value in the set |
| Middlewares.OverlayKeys | project_scrapy/middlewares.py:256-257 | the overlay's names are the old ones plus the set's, and untouched headers keep their values |
| Middlewares.OverlayLastWins | project_scrapy/middlewares.py:256-257 | a name takes the value of its last entry in the set |
| Middlewares.UserAgentOnly | project_scrapy/middlewares.py:132-133 | setting `User-Agent` changes that header only |
| Middlewares.ParamIsTrue | project_scrapy/middlewares.py:326-335 | `_param_is_true`: the meta value, `False` when absent; text whose lower-case form is `true` counts as `True`; a boolean is its own answer; anything else is false |
| Middlewares.ParamIsTrueIff | project_scrapy/middlewares.py:326-335 | a flag is true exactly when it is present and is the boolean `True` or the text "true" in some letter case |
| Middlewares.ParamIsFalseForOtherStrings | project_scrapy/middlewares.py:326-335 | text of any length other than four is never true |
| Middlewares.ScenarioJsonExists | project_scrapy/middlewares.py:349-372 | some JSON text matches the nine-instruction scenario with its random ranges |
| Middlewares.InstructionsPrintable | project_scrapy/middlewares.py:356-371 | each of the scenario's instructions serialises to printable ASCII, one object per instruction |
| Middlewares.ScenarioJsonPrintable | project_scrapy/middlewares.py:371 | the `js_scenario` value sent to the proxy is printable ASCII whatever its drawn values: the accented letter of the final script is escaped |
| Middlewares.SelectedParams | project_scrapy/middlewares.py:385-410 | the entries the flags add, in the code's order: a flag's parameter and value exactly when the flag is true |
| Middlewares.ProxyPayload | project_scrapy/middlewares.py:384-410 | the payload: `api_key`, then `url`, then the selected flag entries |
| Middlewares.UrlEncode | project_scrapy/middlewares.py:411 | `urlencode(payload)`: `key=str(value)` pairs joined by `&`, percent-encoding left out |
| Middlewares.ProxyUrl | project_scrapy/middlewares.py:411 | the endpoint followed by the encoded payload |
| Middlewares.ProxyFlagsTable | project_scrapy/middlewares.py:385-410 | the thirteen `sops_*` flags in order, each with its query parameter and the value it sends |
| Middlewares.FlagParamsDistinct | project_scrapy/middlewares.py:384-410 | the flag parameters are distinct from each other and from `api_key` and `url` |
| Middlewares.SelectedParamsSpec | project_scrapy/middlewares.py:385-410 | the chosen parameters are exactly those of the flags that are true, with their values, and no name repeats |
| Middlewares.LookupDistinct | project_scrapy/middlewares.py:411 | in a payload without repeated names, a name has value `v` exactly when the pair is in the payload |
| Middlewares.LookupAbsent | project_scrapy/middlewares.py:411 | a name that does not occur has no value |
| Middlewares.PayloadEntries | project_scrapy/middlewares.py:384-410 | the payload holds `api_key`, then `url`, then exactly the switched-on flag parameters, and no name repeats |
| Middlewares.PayloadLookup | project_scrapy/middlewares.py:385-410 | each flag's parameter is present, with the table's value, exactly when the flag is true |
| Middlewares.PayloadValues | project_scrapy/middlewares.py:386-410 | each of the thirteen parameters is present exactly when its `sops_*` flag is true, with its fixed value: `us`, the scenario, session 1, cost 50, `generic_level_1`, `follow_redirects` false, the rest true |
| Middlewares.PayloadWithoutFlags | project_scrapy/middlewares.py:384-410 | with no flag on, the payload is just the key and the URL |
| Middlewares.NoneSelected | project_scrapy/middlewares.py:385-410 | with no flag on, no parameter is chosen |
| Middlewares.ScenarioIgnoredUnlessAsked | project_scrapy/middlewares.py:393-394 | the random scenario matters only when `sops_js_scenario` is on |
| Middlewares.ProxyUrlContainsEndpoint | project_scrapy/middlewares.py:411 | a proxy URL contains the endpoint, so a rewritten request is not rewritten again |
| Middlewares.SkipsRequestAsWritten | project_scrapy/middlewares.py:486 | the guard as written skips exactly the requests whose URL contains the endpoint |
| Middlewares.SkipsRequest | project_scrapy/middlewares.py:486 | the corrected guard skips every request when the proxy is off, and otherwise those already at the endpoint |
| Middlewares.DisabledProxyStillRewrites | project_scrapy/middlewares.py:486-487 | with the proxy switched off, the guard as written still rewrites a books.toscrape.com request |
| Middlewares.CorrectedGuardAgreesWhenEnabled | project_scrapy/middlewares.py:486 | the two guards agree whenever the proxy is enabled |
| Middlewares.StashedUrl | project_scrapy/middlewares.py:464 | `request.headers.get('X-Original-URL', fallback)`: the stashed URL, or the fallback when there is none |
| Middlewares.RestoreAfterStash | project_scrapy/middlewares.py:445-466 | the URL stashed in the header is the one read back |
| Middlewares.FakeUserAgentMiddleware.constructor | project_scrapy/middlewares.py:59-77 | reads the key, endpoint and result count from the settings, keeps the fetched pool, and is active after its enable check |
| Middlewares.FakeUserAgentMiddleware.FakeUserAgentsEnabled | project_scrapy/middlewares.py:107-119 | `active` becomes the check as written |
| Middlewares.FakeUserAgentMiddleware.GetRandomUserAgent | project_scrapy/middlewares.py:96-105 | returns a member of the pool; an empty pool raises `ValueError` |
| Middlewares.FakeUserAgentMiddleware.ProcessRequest | project_scrapy/middlewares.py:121-134 | sets `User-Agent` to a pool member and changes no other header; an empty pool raises and leaves the headers alone |
| Middlewares.FakeBrowserHeadersMiddleware.constructor | project_scrapy/middlewares.py:177-195 | reads the key, endpoint and result count from the settings, keeps the fetched header sets, and is active |
| Middlewares.FakeBrowserHeadersMiddleware.FakeHeadersEnabled | project_scrapy/middlewares.py:229-242 | `active` becomes the check as written |
| Middlewares.FakeBrowserHeadersMiddleware.GetRandomHeader | project_scrapy/middlewares.py:215-226 | returns one of the header sets; an empty pool raises `ValueError` |
| Middlewares.FakeBrowserHeadersMiddleware.ProcessRequest | project_scrapy/middlewares.py:244-258 | the headers become the old ones overlaid with one fetched header set; an empty pool raises and leaves them alone |
| Middlewares.ProxyMiddleware.constructor | project_scrapy/middlewares.py:295-308 | reads the key, the endpoint (with its default) and the enable setting (default off); the session number starts at 1 |
| Middlewares.ProxyMiddleware.JsScenario | project_scrapy/middlewares.py:349-372 | returns the JSON of a nine-instruction scenario whose random values lie in their ranges |
| Middlewares.ProxyMiddleware.GetProxyUrl | project_scrapy/middlewares.py:376-412 | returns the endpoint followed by the encoded payload for this request, for some valid scenario |
| Middlewares.ProxyMiddleware.ScrapeOpsProxyEnabled | project_scrapy/middlewares.py:416-424 | enabled exactly when the key is non-empty and the setting is on |
| Middlewares.ProxyMiddleware.AddOriginalUrlToRequestHeaders | project_scrapy/middlewares.py:445-451 | adds the request URL under `X-Original-URL` and changes no other header |
| Middlewares.ProxyMiddleware.ReplaceResponseUrl | project_scrapy/middlewares.py:455-466 | the response takes the stashed URL if there is one and is otherwise unchanged; status, headers and body are kept |
| Middlewares.ProxyMiddleware.ProcessRequest | project_scrapy/middlewares.py:485-497 | a skipped request passes through untouched; any other request gets the stash header and a fresh replacement aimed at the proxy URL with the same meta |
| Middlewares.ProxyMiddleware.ProcessResponse | project_scrapy/middlewares.py:500-514 | returns the response with its URL restored |
| Middlewares.ProxyRoundTrip | project_scrapy/middlewares.py:485-514 | the request's headers gain only the `X-Original-URL` stash of its URL; the replacement is fresh, has the same meta and is not proxied again; the response comes back under the request's original URL with status and body kept |
| BookSpider.StartMeta | project_scrapy/spiders/bookspider.py:35-49 | the start requests' meta dict, with later keys overwriting earlier ones |
| BookSpider.StartMetaEntries | project_scrapy/spiders/bookspider.py:35-49 | the later `sops_session_number` key wins, and `sops_js_scenario` is the text "False" |
| BookSpider.StartMetaNoFlag | project_scrapy/spiders/bookspider.py:35-49 | no `sops_*` flag of the start requests is true |
| BookSpider.StartPayload | project_scrapy/spiders/bookspider.py:32-50 | start requests are proxied with only the key and the URL |
| ProjectSettings.StartMiddlewares | project_scrapy/settings.py:120-131 | the header middleware requests 100 header sets and is active; the proxy is enabled exactly when the API key is non-empty |

## Left out

- Fetching the user agent and header pools over HTTP (middlewares.py:89-94, 207-212) is network I/O. Each pool is a constructor parameter.
- `from_crawler` and Scrapy's middleware and pipeline plumbing are framework glue. Constructors take the settings directly.
- `_get_IP_proxy` (middlewares.py:428-442) is a network call that nothing in the project uses.
- Logging is not modelled.
- The commented-out code (middlewares.py:311-324, 494-496, 519-526) is not modelled.
- `DataBasePipeline` (pipelines.py:56 on) is enabled at priority 300, after `ProjectScrapyPipeline` at 200 (settings.py:90-93). It only writes items to a database, which is I/O, so it is left out.
- The spider's `parse` and its XPath extraction are not modelled. Items are given values.
- Reading `SCRAPEOPS_API_KEY` from the environment is I/O. The key is a parameter.
- The spider's session UUID is modelled only by its length of 36 characters.
- The user agent middleware is modelled, but the project's settings leave it switched off (settings.py:73). `StartMiddlewares` builds only the two active middlewares.
- Middlewares.ProxyMiddleware.GetProxyUrl: builds the payload with the table-driven function `ProxyPayload` instead of thirteen in-place dictionary insertions. The entries, their order and their values are the same.
- Middlewares.ProxyMiddleware.GetProxyUrl: states the URL only for some valid scenario. The random scenario values are not tied to one call.
- Middlewares.UrlEncode: percent-encoding is the identity. The parameter names, values and their order are what is modelled.
- Http.Request: only the URL, headers and meta are modelled. `request.replace` copies the other attributes (callback, priority and so on), which are not represented.
- The stashed URL is decoded from bytes with `.decode(response.headers.encoding)` (middlewares.py:464). Headers are plain strings here, so the decoding is the identity, and Scrapy's case-insensitive header names are exact map keys.
- Text.Lower: only ASCII letters are lowered. Unicode case mapping is not modelled.
- Text.SearchDigits: `\d` matches ASCII digits only. Python's `\d` on text also matches Unicode decimal digits, which is not modelled.
- Text.IntToString: Python's `str` of an int raises `ValueError` past 4300 digits; the model's `str` returns the digits of every integer. `str` is applied only to the session number 1, the cost 50 and scenario values of at most 20000, none near the limit.
- Text.ParseInt: the digit limit is fixed at its default of 4300. Changing it with `sys.set_int_max_str_digits` is not modelled, and neither are Unicode decimal digits, which `int()` accepts.
- Text.ParseFloat: floats are exact reals. Binary rounding, signed zero and overflow to infinity are not modelled. `float()` also accepts Unicode decimal digits; the model accepts ASCII digits only, so such text is a `ValueError` here.
- Randomness.RandInt: which value in range is picked is not modelled.

## Findings

| source | as written | input that shows it | evidently intended | confidence | as-written member | corrected member |
|---|---|---|---|---|---|---|
| project_scrapy/middlewares.py:486 | `self._scrapeops_proxy_enabled is False` compares the bound method, not its result, with `False`, so it is never true | proxy setting off (or no API key), request to `https://books.toscrape.com/`: the request is still rewritten to the proxy | call the method: skip when it returns `False` | not executed | Middlewares.DisabledProxyStillRewrites | Middlewares.SkipsRequest |
| project_scrapy/middlewares.py:117-119 | the enable check sets `active = True` on every path (the same at 240-242) | `SCRAPEOPS_FAKE_HEADERS_ENABLED = False` with an empty key: the middleware stays active | active only with a non-empty key and the setting on | not executed | Middlewares.EnableCheckIgnoresSettings | Middlewares.CheckedActive |

The methods follow the code as written. Neither header middleware's `process_request`
(middlewares.py:121-134, 244-258) reads `active`, so the enable defect changes only the
flag. The settings switch the header feature off (settings.py:125) but still register the
header middleware at priority 400 (settings.py:72), so it rewrites the headers of every
request either way. `CorrectedGuardAgreesWhenEnabled` shows the corrected proxy guard gives the same answer whenever the proxy is enabled, and the project enables it whenever it has a key.
