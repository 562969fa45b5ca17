# Domain lookup extension: a verified model

This is a model of a browser extension that looks up a domain or host in four places:

- Google's DNS-over-HTTPS service, to resolve its IP address;
- the VirusTotal domain report, through the v3 API if an API key is given and through the HTML page otherwise;
- the aizhan.com filing page, for the ICP filing: company, filing number and filing status;
- the aiqicha.baidu.com corporate registry, for the legal representative, registered capital, phone and e-mail.

The background page (`background.js`) answers four runtime messages: `resolveTarget`, `queryVirusTotal`, `queryAizhan` and `queryICP`. Each handler fetches pages and pulls fields out of them. It tries an ordered list of regular expressions and keeps the first one whose capture group is non-empty. The popup (`popup.js`) does three things:

- it resets its cards and sends the DNS and filing lookups;
- it chains the corporate lookup onto a filing reply that names a company;
- it fills the cards, formats the capital in 万元 and merges every debug record into one JSON object in the debug box.

The popup also cycles through six colour themes.

The network, URL encoding, the regular-expression engine, JSON parsing and serialisation, and locale-dependent rendering of numbers and dates are all parameters of the model. Everything else is modelled as the code does it:

- **Strings** are sequences of UTF-16 code units (`JsText`).
- **`pick` and the detail-link search** are loops proved against a first-match specification function (`Extract`).
- **The handlers** are methods that build their reply step by step. Each returns the reply and the list of URLs it requested (`Dns`, `VirusTotal`, `Aizhan`, `Aiqicha`, `Listener`).
- **The popup's string helpers** are functions with a round-trip and with precedence lemmas (`TextFormat`).
- **The popup's lookup view and theme switcher** are classes whose methods update the cards, the debug box, the body's class set and the theme index (`DebugMap`, `PopupView`, `Theme`).
- **A concrete JSON-like text format** (`FaithfulCodec`) shows that the round trip assumed of `JSON.parse` and `JSON.stringify` can hold.

Two details of the code:

- **Themes.** `applyTheme` removes only the five listed `theme-…` classes. Any other class starting with `theme-` stays.
- **VirusTotal.** The popup never sends `queryVirusTotal`. The handler is modelled for any caller.

## Model

| member | source | states |
|---|---|---|
| Fetch.SafeFetch | background.js:1-9 | A transport failure gives `ok = false`, status 0 and the error's text. A response passes its `ok`, status and body through unchanged. |
| Extract.Group1 | background.js:196 | A pattern without a capture group has no `m[1]`. |
| Extract.Qualifies | background.js:196 | The test `m && m[1]` passes only for a pattern that matched and has a capture group. |
| Extract.Capture | background.js:196 | The group of a qualifying rule is non-empty. |
| Extract.FirstQualifying | background.js:193-199 | Gives the index of a rule whose group 1 is non-empty, with no earlier rule qualifying. Gives None exactly when no rule qualifies. |
| Extract.PickValue | background.js:193-199 | The picked value has no white space at either end. |
| Extract.FirstGroupValue | background.js:343-350 | The detail path is '' exactly when no link rule qualifies. |
| Extract.Pick | background.js:193-199 | The `for` loop with early return computes the trimmed first qualifying group (`PickValue`); the same loop serves `pickFromSearch` and the detail-page `pick`. |
| Extract.FirstGroup | background.js:343-350 | The loop that assigns and breaks yields the first qualifying group, untrimmed (`FirstGroupValue`). |
| Extract.FirstQualifyingAt | background.js:344-350 | When rule i is the first to qualify, the first-match specification finds i. When no rule qualifies up to the end, it finds none. |
| Extract.PickAppend | background.js:194-197 | In a joined rule list, the rules after the first qualifying one are never consulted. When no rule of the front part qualifies, the back part decides. |
| Extract.FirstQualifyingAppend | background.js:344-350 | The first qualifying index in a joined list is the front list's index. Failing that, it is the back list's index shifted by the front's length. |
| Extract.GrouplessNeverQualify | background.js:345-346 | Dropping every rule without a capture group finds the same rule, or none in both cases. |
| Extract.PickIgnoresGrouplessRules | background.js:331-350 | Rules without a capture group never change the picked value or the detail path. |
| Extract.SkipGroupless | background.js:378-382 | Removing one rule without a capture group from anywhere in a list changes neither result. |
| Extract.SkipGrouplessRule | background.js:378-382 | With or without a rule that has no capture group, the first qualifying rule is the same rule, or neither list has one. |
| Extract.BlankCaptureStopsSearch | background.js:193-199 | When the first qualifying rule's group is only white space, `pick` yields '' whatever rules follow. |
| Dns.FindTypeA | background.js:23 | `find(x => x.type === 1)` gives the first A record. It gives None exactly when there is none. |
| Dns.SelectAnswer | background.js:22-26 | Gives the first type-1 record if there is one, else the first record. It gives None exactly for an empty answer. |
| Dns.ResolveTarget | background.js:13-34 | An empty target gives ip '' with no request. A throwing `encodeURIComponent` sends no response. Otherwise exactly one DoH request is made: a non-ok reply or unparsable JSON gives ip '', else the selected record's data. The reply and the request list are those of `ResolveTargetReply` and `ResolveTargetRequests`. |
| VirusTotal.ApiDetection | background.js:78-80 | The malicious count is `malicious`, defaulting to 0. The total is the sum of malicious, undetected and harmless, each defaulting to 0. The status is Malicious exactly when the malicious count is positive. |
| VirusTotal.VendorList | background.js:100-104 | Exactly one vendor per analysis entry, in order, with the engine's result or 'Unknown' when it is empty. The list throws (None) exactly when some entry is null. |
| VirusTotal.WhoisMatch | background.js:83-92 | A found field is the trimmed group 1 of the match. The field is absent exactly when the pattern does not match. |
| VirusTotal.ApiStageOf | background.js:72-108 | The counts and status are always set first. The stage throws exactly when a whois group is missing or an analysis entry is null. Without a throw the vendors are the vendor list. The registrar is set exactly when found, and the analysis date only when non-zero. |
| VirusTotal.ApiStageDates | background.js:83-97 | The creation date is set exactly when the registrar line did not throw and the creation line matched, to its trimmed group. The analysis date is set exactly when both whois lines are past and the date is present and non-zero. |
| VirusTotal.ApiOutcomeOf | background.js:70-112 | The API tier answers exactly when the response is ok and non-empty, decodes, and nothing throws. A decode exception records 'API JSON parse error: ' plus its message. A later exception keeps the counts already assigned and records an error. |
| VirusTotal.ApiTier | background.js:70-112 | The successive assignments of the API tier leave exactly the fields, error and answered flag of its specification `ApiOutcomeOf`. |
| VirusTotal.ParseCountDigits | background.js:139-140 | A missing group gives NaN. A group of decimal digits gives their value. |
| VirusTotal.HtmlDetection | background.js:135-142 | Counts are found exactly when both the `"malicious"` and the `"total"` patterns match. They are the parsed groups, with the same status rule as the API tier. |
| VirusTotal.HtmlOverlay | background.js:131-143 | The HTML tier changes only the detection fields. It changes them exactly when the page was fetched and both counts were found. |
| VirusTotal.QueryVirusTotal | background.js:37-158 | No key means no API request and `apiUsed` false. The HTML page is requested exactly when the API tier did not answer. The report's fields and the whole debug record follow from the two responses, with 500-unit samples. A throwing encoder gives the failure reply with no request. At most two requests are made. The reply and requests are those of `VtReplyOf` and `VtRequests`. |
| Aizhan.QueryAizhan | background.js:160-283 | Exactly one request is made. A non-ok fetch gives `fetch_failed` with the URL and status and extracts nothing. Otherwise the reply carries the three picked fields, and the debug `extracted` block repeats them. A throwing encoder gives the catch reply. The reply and requests are those of `AizhanReplyOf` and `AizhanRequests`. |
| Aiqicha.QueryICP | background.js:285-533 | The outcomes are decided in order. A non-ok search gives `search_failed`. With no detail link, a search page with at least one detail gives success with company = query, and one with none gives `detail_link_not_found`. A non-ok detail fetch gives `detail_fetch_failed`. Otherwise success at `https://aiqicha.baidu.com` + path. The requests, at most two, and the 1000-unit samples match each outcome. The reply and requests are those of `IcpReplyOf` and `IcpRequests`. |
| Aiqicha.DeadDetailLinkRules | background.js:331-350 | The two link patterns without a capture group (the 6th and the 9th) never supply a detail path. |
| Aiqicha.DeadEmailRules | background.js:489-494 | The bare address patterns, on the search page and on the detail page, never supply an e-mail. |
| Listener.OnMessage | background.js:11-538 | Each of the four message types gets exactly its handler's reply and request list, as given by that handler's reply and request functions. A null message or an unknown type gets `{}` with no request. A DNS lookup sends no response exactly when a non-empty target fails to encode. No message lists more than two requests whose outcome is read. |
| JsText.Trim | popup.js:122 | The result is a slice of the input with only white space cut off before and after it. It is empty exactly when the input is all white space, and otherwise neither starts nor ends with white space. |
| JsText.Prefix | background.js:68 | `substring(0, n)` is a prefix of length min(n, length). |
| JsText.IndexOf | popup.js:56 | Gives the first position where the pattern occurs, or None when it occurs nowhere. |
| JsText.ReplaceFirst | popup.js:63 | `replace` with a string pattern replaces the occurrence at the first position where the pattern occurs, and keeps the text before and after it. It leaves the string unchanged when the pattern does not occur. |
| JsText.ParseInt | background.js:139-140 | `parseInt` gives a number only when the text has a decimal digit. |
| JsText.ParseMagnitude | background.js:139-140 | Digits are read only from text that starts with a digit (a `0x` prefix starts with 0). |
| JsText.ParseIntDigits | background.js:139-140 | A run of decimal digits parses as its value. |
| JsText.ParseIntDecimal | background.js:139-140 | `parseInt` reads back every decimal numeral. |
| TextFormat.DecodeUnicode | popup.js:26-39 | '' gives ''. Decoding never lengthens the text and never empties it. |
| TextFormat.DecodeWithoutBackslash | popup.js:29-35 | A string with no backslash is returned unchanged. |
| TextFormat.Escape | popup.js:29 | Writes any code unit, lone surrogates included, as a `\uXXXX` escape that the decoder reads as that unit. |
| TextFormat.DecodeEscapeAll | popup.js:29-35 | Decoding inverts escaping every code unit: the left-to-right scan without overlap. |
| TextFormat.DecodeHexEscape | popup.js:29-34 | A `\u` escape with any four hex digits, upper or lower case, decodes to their value, and the scan goes on after it. |
| TextFormat.DecodeUpperCaseEscape | popup.js:29-34 | Upper-case digits are read: `\u00AB` decodes to the unit 0xAB. |
| TextFormat.StripSeparators | popup.js:44 | No comma or white space remains, and the text never grows. |
| TextFormat.StripConcat | popup.js:44 | The global replace works unit by unit: stripping a concatenation strips each part. |
| TextFormat.StripNone | popup.js:44 | Text without a comma or white space is kept whole. |
| TextFormat.StripAll | popup.js:44 | Text made only of commas and white space disappears. |
| TextFormat.ScanNumber | popup.js:45 | Both parts of the anchored match are made of digits. |
| TextFormat.ScanNumberGreedy | popup.js:45 | The match of `^-?\d*(?:\.\d+)?` has a sign exactly after a leading '-', takes the longest digit run after it, and takes a fraction exactly when a point and a digit follow, again the longest digit run. |
| TextFormat.ScanNumeral | popup.js:45 | A written number followed by text that cannot continue it scans back to its sign, whole part and fraction. |
| TextFormat.NormalizeNumber | popup.js:41-48 | A number comes back as it is. A falsy argument gives NaN. A string gives a finite value exactly when the anchored prefix has a digit. |
| TextFormat.NormalizeNumeral | popup.js:41-48 | Text whose stripped form is a sign, a whole part and a fraction followed by a unit normalises to ±(whole + fraction / 10^digits). |
| TextFormat.NormalizeIgnoresSeparators | popup.js:44-47 | Commas and white space anywhere in the text do not change the number. |
| TextFormat.PrefixValueBounds | popup.js:47 | `parseFloat` of the match lies between the whole part and the next integer, on the side of its sign. |
| TextFormat.PrefixValueScaled | popup.js:47 | The value is the whole and fraction digits read as one number, divided by 10 to the fraction's length. |
| TextFormat.DigitsConcat | popup.js:45-47 | Digits written after other digits shift them up by a power of ten. |
| TextFormat.NormalizeDecimal | popup.js:44-47 | A numeral followed by a unit such as 万元 normalises to its value. |
| TextFormat.LeadingNonDigitIsNaN | popup.js:45-46 | A string that starts with anything but a digit, sign, point or separator gives NaN. |
| TextFormat.UnitOf | popup.js:56-66 | 亿 takes precedence over 万, and 万 over 元, 人民币 and CNY (case-insensitive). |
| TextFormat.FormatCapital | popup.js:50-52 | The result is '' exactly when the decoded, trimmed text is empty. |
| TextFormat.FormatAmount | popup.js:54-72 | Non-empty text formats to non-empty text. |
| TextFormat.FormatIn | popup.js:56-72 | A numeric amount is multiplied by its unit's factor to 万 and rendered with the unit's fraction digits plus ' 万元'. Without a number, 万 text has its first 万 replaced by 万元 and any other text is kept as a prefix of the result. The result is never empty. |
| TextFormat.FormatAmountNumeric | popup.js:54-71 | A numeric amount is scaled to 万. The factors are ×10000 for 亿, ×1 for 万 and for a bare number, and ÷10000 for yuan. It is rendered with 2 fraction digits for yuan, else 3, followed by ' 万元'. |
| TextFormat.FormatAmountNonNumeric | popup.js:56-72 | Without a number: 亿 text and bare text are kept. 万 text gets only its first 万 replaced by 万元. Yuan text gets ' (万元)' appended. |
| TextFormat.WanBeforeYuan | popup.js:61-62 | '100万元' takes the 万 branch and formats as 100 万元. |
| TextFormat.WanYuanDoubled | popup.js:63 | '约100万元' has no leading number and comes back as '约100万元元'. |
| DebugMap.Put | popup.js:208 | An existing key keeps its position. A new key goes last. |
| DebugMap.PutGetSame | popup.js:208 | After the spread-and-set, the key holds the new value. |
| DebugMap.PutGetOther | popup.js:225 | Every other key keeps its value. |
| DebugMap.PutUnique | popup.js:181 | Setting a key never duplicates one. |
| DebugMap.PutPut | popup.js:208 | Setting the same key twice keeps only the second value. |
| DebugMap.Merge | popup.js:203-215 | Blank text or a parse failure gives the initial object. Parsable text gives that object with the one key set. |
| PopupView.ShowText | popup.js:21-24 | '' shows '-' and is muted. Any other text shows as it is and is not muted. |
| PopupView.Overwrite | popup.js:193-198 | A card changes only for a non-empty value. |
| PopupView.Merged | popup.js:200-209 | A merge makes the toggle visible. It puts the merged text in the box and leaves the box's visibility alone. |
| PopupView.CorporateDebugInitial | popup.js:184-187 | The fallback object holds `aizhan` (when the filing reply had a debug record) and `aiqicha`, in that order. |
| PopupView.LookupView.Refresh | popup.js:121-150 | The host card shows the trimmed query. The eight other detail cards are reset to '-', muted. The ICP company card is kept. The debug box and toggle are cleared and hidden. The DNS and filing lookups are sent for the query. |
| PopupView.LookupView.OnDnsReply | popup.js:145-147 | Only the IP card changes. |
| PopupView.LookupView.OnFilingReply | popup.js:150-217 | The corporate lookup is sent exactly for an `aizhan` reply with a non-empty company, using the company as received. The company cards show it decoded. Number and status overwrite only when non-empty. A debug record is merged under `aizhan`. Any other reply changes nothing. |
| PopupView.LookupView.OnFilingError | popup.js:218-233 | `String(error)` is merged under `aizhanError`; the cards are unchanged. |
| PopupView.LookupView.OnCorporateReply | popup.js:158-191 | For an `aiqicha` reply, each non-empty detail overwrites its card: legal decoded, capital formatted, phone and e-mail as given. The debug record is merged under `aiqicha`, with the filing's debug record in the fallback object. Any other reply changes nothing. |
| PopupView.MergesAccumulate | popup.js:176-215 | Assume `JSON.stringify` then `JSON.parse` reads back every object JavaScript can hold, and `JSON.parse` returns only such objects. Such an object has distinct keys in JavaScript's key order and exact numbers, at every depth. Then, for a well-formed initial object and value, and keys that are not array indices, the filing merge followed by the corporate merge keeps both records. |
| PopupView.SourceKeysAreNames | popup.js:181-209 | `aizhan`, `aiqicha` and `aizhanError` are not array indices, so merging under them appends a new key at the end. |
| PopupView.CorporateDebugInitialWellFormed | popup.js:184-187 | The corporate fallback object `{ aizhan, aiqicha }` is one JavaScript can hold when its records are. |
| DebugMap.PutWellFormed | popup.js:208 | Setting a well-formed value under a key that is not an array index keeps the object one JavaScript can hold: keys distinct, key order kept, every value well formed. |
| DebugMap.PutKeyOrder | popup.js:208 | Setting a key that is not an array index keeps the array-index keys first, ascending. |
| DebugMap.PutMembers | popup.js:208 | Every member after the update is the new one or the member that was at its place. |
| DebugMap.GetWellFormed | popup.js:207-208 | Each property of a well-formed object is well formed. |
| DebugMap.NestedRepeatNotWellFormed | popup.js:207 | An object that repeats a key inside a nested object is not well formed: `JSON.parse` never returns one. |
| FaithfulCodec.DecEncMembers | popup.js:206-209 | Part of the witness for the premise of `MergesAccumulate`; it models no code of its own. A concrete text format for debug objects reads back every object it writes, whole and in order, with any text after it left over. |
| FaithfulCodec.FaithfulSatisfiable | popup.js:206-209 | Witness for the premise of `MergesAccumulate`; it models no code of its own. The format meets the round-trip premise, so the premise can hold. Its parser refuses every object that is not well formed. |
| Theme.ThemeIndex | popup.js:301 | `themes.indexOf` gives the position of a listed name, and None exactly for an unlisted one. |
| Theme.Themed | popup.js:309-316 | Non-theme classes are kept. The default theme leaves no theme class. Any other theme adds its own class. |
| Theme.ListedThemeClasses | popup.js:311-315 | Every non-default theme's class is one of the five classes removed. |
| Theme.OnlyFirstIsDefault | popup.js:295 | Only the first listed theme is 'default'. |
| Theme.ThemedShowsOnlyOne | popup.js:309-316 | After a listed theme is applied, the body carries exactly that theme's class among the theme classes, or none for the default. |
| Theme.ThemedLastWins | popup.js:309-316 | Applying a listed theme erases any earlier listed theme. Applying it twice is the same as applying it once. |
| Theme.ThemeControl.constructor | popup.js:296 | The index starts at 0. |
| Theme.ThemeControl.ApplyTheme | popup.js:309-320 | The body's classes become `Themed` of the old ones, and the name is stored. |
| Theme.ThemeControl.Restore | popup.js:299-307 | A stored, listed name becomes current and is applied. Anything else changes nothing. |
| Theme.ThemeControl.Click | popup.js:322-333 | The index becomes (i + 1) mod 6. That theme is applied and stored, and the button shows that theme's icon. |
| Theme.Advance | popup.js:325 | Any number of clicks stays within the six themes. |
| Theme.AdvanceCycle | popup.js:325 | n clicks move the index n places round the cycle of six, so every sixth click returns to the starting theme. |

## Left out

- `fetch` itself, its request headers and credentials modes: the network is a function from URL to the `{ ok, status, text }` outcome.
- The corporate lookup's warm-up request to the registry home page (background.js:293-302), whose response is discarded. The request lists name only the requests whose outcome the handler reads.
- The semantics of the regular expressions. Each pattern is kept as its text, flags and number of capture groups, and a match is supplied by an engine parameter.
- `JSON.parse` and `JSON.stringify`, both parameters. What the object spread copies from a parsed array or string is part of the parser parameter.
- `encodeURIComponent` is a parameter that may throw. Its throwing drives the handlers' `catch` branches.
- `new Date(...).toLocaleString()` and `toLocaleString('zh-CN', …)` are renderer parameters. Numbers are exact reals: floating-point rounding is not modelled.
- The `chrome.runtime`, `chrome.tabs` and `chrome.storage` APIs, `getActiveHost`, `appendList`, the initial page markup and icon, the input-box and debug-toggle click handlers, and the DOM's null guards.
- The asynchronous interleaving of the callbacks of `refresh`: each callback is a separate state change.
- The second `sendResponse` of the filing handler (background.js:252-269), which follows a `return` and never runs.
- JSON numbers in the debug records are integers: the records carry only statuses and lengths. A well-formed number is an integer an IEEE double holds exactly.
- DebugMap.Put: a new key always goes last. JavaScript puts a new array-index key among the other indices instead, but the popup only sets `aizhan`, `aiqicha` and `aizhanError`.
- Message fields that are not strings: each field stands for `msg.<field> || ''`.
- VirusTotal.VtAttributes: the API body is assumed to have its documented field types. The decoder gives `whois` a string type and the counts integer types. In the code, a truthy `whois` that is not a string makes `whois.match` throw after the counts are set, so they survive. The model can only say `DecodeThrew` there, which drops the counts. A string count would be concatenated rather than added.
- VirusTotal.QueryVirusTotal: the failure reply carries the error once; its debug copy `{ error }` is not represented separately.
