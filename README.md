# Dark Web Leak Finder: a Dafny model of its core

Dark Web Leak Finder is a Django application. Its main features:

- It keeps a list of watched e-mail addresses. For each one it asks the
  Have I Been Pwned (HIBP) v3 API which breaches the address appears in, and
  stores one `BreachHit` row per breach.
- It looks up hosts on Shodan and stores the host snapshot as a
  `ShodanFinding`.
- It shows a ticker of Known Exploited Vulnerabilities. The ticker reads the
  CISA feed, falls back to NVD, and then to a placeholder.
- It draws a threat map from Cloudflare Radar, with a cache and fixed
  fallback points.
- It renders HIBP breach descriptions through an allow-list HTML sanitizer.
- It has template filters, an e-mail validator and three request-size
  middlewares.

This project models that core in Dafny and proves what the code promises.
There is one module per source file:

| module | file |
|---|---|
| `BreachViews` | `breaches/views.py` |
| `Hibp` | `breaches/services/hibp.py` |
| `Shodan` | `breaches/services/shodan_client.py` |
| `Models` | `breaches/models.py` |
| `KevSources` | `security_ticker/services/sources.py` |
| `ThreatmapFetcher` | `threatmap/services/fetcher.py` |
| `ThreatmapConf` | `threatmap/conf.py` |
| `Cloudflare` | `threatmap/providers/cloudflare.py` |
| `Sanitizer` | `breaches/templatetags/hibp_extras.py` |
| `TickerFilters` | `security_ticker/templatetags/breach_extras.py` |
| `Email` | `core/services/utils.py` |
| `Middleware` | `core/middleware.py` |

Three shared modules hold what Python provides:

- `Wrappers`: `Option` and `Result`.
- `Text`: `str.strip`, `lower`, `split` and `join`, decimal conversion, and
  `int()` on text.
- `Json`: the dynamically typed values the code handles, with `dict.get`,
  `d[k] = v`, truthiness, `or`, `str()` and `int()`.

A dict is a sequence of (key, value) pairs in insertion order. `get` finds
the first pair with the key.

Where the code works by changing state, the model does too.

- The database is a class, `Models.Database`. It has one map per table, and
  its methods carry `modifies` clauses.
- The `scan_identity` loop is a `while` loop in `BreachViews.WriteBatch`, and
  its inner `while` loop is in `BreachViews.NextFreeName`. Both are proved
  against the pure specification `BreachViews.Run`.
- The HIBP client is a class whose methods record `last_status`, `last_url`,
  `last_items` and `last_ct`.
- The Shodan retry loop, the KEV mapping loops and the Cloudflare row loop
  are loops. Each is proved equal to a recursive specification.
- The sanitizer is a class that accumulates `chunks`. Its attribute loop and
  its event loop are loops.
- The threat-map cache is a class whose `entries` map is read and written by
  `GetPoints`.

Pure code (`_safe_date`, `_date_yyyy_mm_dd`, `_normalize_breach`,
`conf_get`, `_url_for`, `_extract_rows`, `to_list`, `is_valid_email` and the
middleware decisions) is modelled as functions with lemmas.

Some inputs come from outside the code and are parameters of the model:

- HTTP responses, as data.
- DNS answers, as `Option<string>`.
- Whether a text is an IP literal, as a `bool`.
- The Shodan replies, as a function from attempt number to reply.
- `json.loads`, `HTMLParser` tokenisation (a sequence of events) and
  `parse_qsl`, as functions.
- Whether a text converts with `float()`, as a predicate.
- The current time, as a string.

Facts about the code that the model keeps as written:

- `data_classes` is not de-duplicated, and a string value is comma-split,
  not JSON-parsed (`breaches/services/hibp.py:309-315`).
- The KEV `limit` is not clamped to a range. It is only used as a slice
  bound (`security_ticker/services/sources.py:39,58`).
- The KEV source tag carries the last error's text as
  `"fallback: <error>"` (`security_ticker/services/sources.py:71-72`).
- The trailing `"Unknown"` breach name is unreachable, because the
  `unknown-<date>-<date>` alternative before it is never empty
  (`breaches/views.py:86-95`).
- `_safe_date` is wrapped in `@login_required` (see Findings).
- A link keeps a `rel` it already carries. `rel="noopener noreferrer"` is
  added only when no `rel=` attribute is present
  (`breaches/templatetags/hibp_extras.py:81-82`), so
  `<a href="https://x" rel="opener">` keeps `rel="opener"`. The docstrings
  (`hibp_extras.py:42-44,116`) say every link gets that `rel`; the code
  does not do that (`Sanitizer.SuppliedRelKept`).
- The Cloudflare fallback always returns its four sample points whatever
  the `limit` (`threatmap/providers/cloudflare.py:283-336`). The limit is
  documented as the maximum number of points returned
  (`threatmap/providers/cloudflare.py:162`, `threatmap/conf.py:28`), so
  a fallback under a `POINT_LIMIT` below 4 exceeds it
  (`Cloudflare.FallbackExceedsLimit`).

## Model

| member | source | states |
|---|---|---|
| BreachViews.SafeDate | darkweb-leak-finder/src/breaches/views.py:57-66 | the result is None or 10 characters with '-' at positions 4 and 7, taken from the start of the stripped text; never ""; a falsy value gives None |
| BreachViews.SafeDateAcceptsNormalized | darkweb-leak-finder/src/breaches/views.py:57-66 | every date the HIBP client normalised passes `_safe_date` unchanged |
| BreachViews.SafeDateNotIdempotent | darkweb-leak-finder/src/breaches/views.py:57-66 | only the dashes are checked: "2019-10-1 5" gives "2019-10-1 ", which a second application rejects |
| BreachViews.SafeDateAsWritten | darkweb-leak-finder/src/breaches/views.py:55-56 | the decorated helper raises for every argument, because the decorator reads `.user` from it |
| BreachViews.OrStr | darkweb-leak-finder/src/breaches/views.py:86-95 | Python `a or b` on strings is empty only when both are |
| BreachViews.FallbackName | darkweb-leak-finder/src/breaches/views.py:91-95 | the synthetic name always starts with "unknown-", so it is never empty |
| BreachViews.ResolveNameTotal | darkweb-leak-finder/src/breaches/views.py:86-95 | the resolved name is never empty; the trailing "Unknown" alternative is never reached; "Unknown" results only from an input that is literally "Unknown" |
| BreachViews.FieldText | darkweb-leak-finder/src/breaches/views.py:86-88 | a field read with `(a or b or "").strip()` is stripped text, or the AttributeError of a non-string |
| BreachViews.ResolveItem | darkweb-leak-finder/src/breaches/views.py:86-131 | an item resolves exactly when its three name fields are strings or falsy; the resolved name is non-empty; no written date is "" |
| BreachViews.ResolveItemTitle | darkweb-leak-finder/src/breaches/views.py:117 | the stored title is the title, else the raw name, else the domain |
| BreachViews.Candidate | darkweb-leak-finder/src/breaches/views.py:103-105 | "base (n)" extends the base name |
| BreachViews.CandidateInjective | darkweb-leak-finder/src/breaches/views.py:103-105 | different suffix numbers give different candidate names |
| BreachViews.Used | darkweb-leak-finder/src/breaches/views.py:102 | a candidate is taken exactly when it was used in this batch or is stored for this identity |
| BreachViews.FreeIndex | darkweb-leak-finder/src/breaches/views.py:102-105 | the loop stops at the first n whose candidate is free, and every earlier candidate is taken |
| BreachViews.FreeIndexUnique | darkweb-leak-finder/src/breaches/views.py:102-105 | the first free suffix is unique |
| BreachViews.PlaceName | darkweb-leak-finder/src/breaches/views.py:97-106 | a first use keeps its name; a repeat gets a name neither used in the batch nor stored |
| BreachViews.RunSnoc | darkweb-leak-finder/src/breaches/views.py:84-139 | one more item extends the batch outcome by one step |
| BreachViews.StepUpserts | darkweb-leak-finder/src/breaches/views.py:133-139 | each item does exactly one upsert keyed by (identity, name); created + updated grows by one; created grows iff the key was absent |
| BreachViews.StepKeepsFirstName | darkweb-leak-finder/src/breaches/views.py:99-139 | the first use of a name keeps it, even when a stored row has it, and that row counts as updated |
| BreachViews.StepRepeatedName | darkweb-leak-finder/src/breaches/views.py:100-106 | a repeated name becomes the least "base (n)", n >= 2, that is free, and it is always created |
| BreachViews.StepConsistent | darkweb-leak-finder/src/breaches/views.py:84-139 | one step keeps the batch names distinct, recorded in seen_names and stored |
| BreachViews.RunConsistent | darkweb-leak-finder/src/breaches/views.py:84-139 | names within a batch are pairwise distinct, and created + updated equals the number of items |
| BreachViews.RunFrame | darkweb-leak-finder/src/breaches/views.py:133-139 | rows of other identities and of unused names are unchanged; no row disappears |
| BreachViews.RunAfterFailure | darkweb-leak-finder/src/breaches/views.py:147-155 | once an item raises, the rest of the batch is skipped |
| BreachViews.RunDistinctNames | darkweb-leak-finder/src/breaches/views.py:97-106 | a batch whose names are already distinct writes them unchanged |
| BreachViews.RunAllStored | darkweb-leak-finder/src/breaches/views.py:133-139 | a distinct batch whose rows are all stored creates nothing |
| BreachViews.RunIdempotent | darkweb-leak-finder/src/breaches/views.py:102-139 | re-running a batch with distinct names on its own result creates nothing, updates every item and leaves the stored rows unchanged |
| BreachViews.RunDistinctHits | darkweb-leak-finder/src/breaches/views.py:102-139 | with distinct names, the stored rows after a batch are the old rows overridden by one row per item under its own name |
| BreachViews.RerunKeepsHits | darkweb-leak-finder/src/breaches/views.py:102-139 | a second run of a distinct-name batch rewrites each row with the value it already holds |
| BreachViews.RunGrows | darkweb-leak-finder/src/breaches/views.py:84-139 | the seen names and the created count only grow along the batch |
| BreachViews.RunDuplicateCreates | darkweb-leak-finder/src/breaches/views.py:102-139 | a batch with a duplicated name creates at least one row on every run |
| BreachViews.RunNeverFails | darkweb-leak-finder/src/breaches/views.py:84-139 | a batch of resolvable items never raises |
| BreachViews.RunPair | darkweb-leak-finder/src/breaches/views.py:84-139 | a two-item batch is two steps |
| BreachViews.AdobeFirstRun | darkweb-leak-finder/src/breaches/views.py:97-139 | "Adobe" twice on an empty table stores "Adobe" and "Adobe (2)" with two creations |
| BreachViews.AdobeSecondRun | darkweb-leak-finder/src/breaches/views.py:97-139 | when "Adobe" and "Adobe (2)" are stored, the repeat goes to "Adobe (3)": one update, one creation |
| BreachViews.AdobeTwice | darkweb-leak-finder/src/breaches/views.py:97-139 | "Adobe" twice on an empty table writes "Adobe" and "Adobe (2)"; the re-run updates "Adobe" and creates "Adobe (3)" |
| BreachViews.AsWrittenScanWritesNothing | darkweb-leak-finder/src/breaches/views.py:55-155 | with the decorator as written, any non-empty scan fails on its first item and writes nothing |
| BreachViews.ResolvesWhenStrings | darkweb-leak-finder/src/breaches/views.py:86-88 | an item with string lower-case name fields and no capitalised keys resolves |
| BreachViews.NormalizedResolves | darkweb-leak-finder/src/breaches/views.py:84-95 | every record the HIBP client returns resolves, so the scan loop never raises on them |
| BreachViews.NextFreeName | darkweb-leak-finder/src/breaches/views.py:100-106 | the `while` loop returns the first free "base (n)" from n = 2 |
| BreachViews.WriteBatch | darkweb-leak-finder/src/breaches/views.py:84-139 | the loop writes exactly the rows, and counts exactly the creations and updates, that `Run` prescribes |
| BreachViews.ScanIdentity | darkweb-leak-finder/src/breaches/views.py:70-155 | a missing identity writes nothing; an HIBP error writes nothing and is reported by kind; otherwise the batch is written as `Run` prescribes, with the client's status and item count |
| BreachViews.Iterate | darkweb-leak-finder/src/breaches/views.py:181-186 | iteration succeeds exactly on lists, strings and dicts |
| BreachViews.AllInts | darkweb-leak-finder/src/breaches/views.py:181-186 | every element converts with `int()`, and the result holds the converted values in order |
| BreachViews.Insert | darkweb-leak-finder/src/breaches/views.py:183 | inserting into a strictly sorted list keeps it strictly sorted and adds exactly the element |
| BreachViews.SortedDistinct | darkweb-leak-finder/src/breaches/views.py:183 | `sorted(set(...))` is strictly sorted with the same elements |
| BreachViews.SortedHeadLeast | darkweb-leak-finder/src/breaches/views.py:183 | the head of a strictly sorted list is its least element |
| BreachViews.StrictlySortedUnique | darkweb-leak-finder/src/breaches/views.py:183 | two strictly sorted lists with the same elements are equal |
| BreachViews.SortedDistinctIdempotent | darkweb-leak-finder/src/breaches/views.py:183 | normalising normalised ports changes nothing |
| BreachViews.NormalizePortsCases | darkweb-leak-finder/src/breaches/views.py:181-186 | falsy ports give []; all-integer ports give the sorted distinct ints; otherwise the list is kept |
| BreachViews.PlanTarget | darkweb-leak-finder/src/breaches/views.py:171-202 | a write happens only for a host payload that is a dict |
| BreachViews.PlanTargetWrites | darkweb-leak-finder/src/breaches/views.py:171-202 | no data or no ip_str/ip writes nothing; otherwise the row is keyed by ip_str, else ip, keeps the payload, has hostnames `or []`, org and os `or ""`, the normalised ports, and last_seen = last_update or now |
| BreachViews.ScanTarget | darkweb-leak-finder/src/breaches/views.py:159-210 | an empty target, every non-write outcome and an unexpected error leave the findings unchanged; a saved write changes exactly one row, which then holds the IP, hostnames, ports, org, os, payload and last_update of the plan, with created_on kept for an existing row and set to now for a new one; one row per IP is preserved |
| Hibp.DateYmd | darkweb-leak-finder/src/breaches/services/hibp.py:82-101 | None or the first 10 characters of the stripped text, exactly when they match `\d{4}-\d{2}-\d{2}`; falsy input gives None |
| Hibp.YmdIsStripped | darkweb-leak-finder/src/breaches/services/hibp.py:82 | a matching date has no surrounding whitespace |
| Hibp.DateYmdIdempotent | darkweb-leak-finder/src/breaches/services/hibp.py:96-101 | normalising a normalised date returns it |
| Hibp.AsFieldsLowerKeys | darkweb-leak-finder/src/breaches/services/hibp.py:323-342 | every key of a normalised record starts with a lower-case letter |
| Hibp.AsFieldsNoCapitalKey | darkweb-leak-finder/src/breaches/services/hibp.py:323-342 | a normalised record has no capitalised HIBP key |
| Hibp.AsFieldsNames | darkweb-leak-finder/src/breaches/services/hibp.py:323-327 | breach_name, title and domain are read back as stored |
| Hibp.KeepTrimmed | darkweb-leak-finder/src/breaches/services/hibp.py:309-315 | no more pieces are kept than were given |
| Hibp.KeepTrimmedClean | darkweb-leak-finder/src/breaches/services/hibp.py:309-315 | every kept piece is stripped and non-empty |
| Hibp.KeepTrimmedAppend | darkweb-leak-finder/src/breaches/services/hibp.py:309-315 | trimming distributes over concatenation, so order is kept |
| Hibp.KeepTrimmedKeepsClean | darkweb-leak-finder/src/breaches/services/hibp.py:309-315 | already-clean lists are unchanged, so nothing is de-duplicated |
| Hibp.DataClasses | darkweb-leak-finder/src/breaches/services/hibp.py:309-315 | the elements are stripped and non-empty; neither a list nor a string gives [] |
| Hibp.NormalizeBreach | darkweb-leak-finder/src/breaches/services/hibp.py:279-342 | a kept record has a non-empty name |
| Hibp.NormalizeBreachShape | darkweb-leak-finder/src/breaches/services/hibp.py:291-342 | breach_name is the stripped Name; the title is the stripped Title, else the name, and never empty; domain and description are the stripped values; pwn_count is `int(PwnCount or 0)`; breach_date, added_on and modified_on are the 'YYYY-MM-DD' normalisations of BreachDate, AddedDate and ModifiedDate; occurred_on equals breach_date; data_classes is the trimmed list; the flags are those read from the record |
| Hibp.NormalizeDropsExactlyNameless | darkweb-leak-finder/src/breaches/services/hibp.py:291-294 | a record is dropped exactly when Name is missing or blank |
| Hibp.FabricatedReadsMisspelledKey | darkweb-leak-finder/src/breaches/services/hibp.py:335-342 | is_fabricated is true exactly when the misspelled key "IsFabricricated" is truthy |
| Hibp.Utf8Char | darkweb-leak-finder/src/breaches/services/hibp.py:202 | a character encodes to 1 to 4 UTF-8 bytes |
| Hibp.HexValue | darkweb-leak-finder/src/breaches/services/hibp.py:202 | a hex digit denotes a value below 16 |
| Hibp.HexDigitValue | darkweb-leak-finder/src/breaches/services/hibp.py:202 | reading back a written hex digit gives its value |
| Hibp.QuoteByte | darkweb-leak-finder/src/breaches/services/hibp.py:202 | a byte is kept as is or written as "%XY" |
| Hibp.QuoteRoundTrip | darkweb-leak-finder/src/breaches/services/hibp.py:202 | percent-decoding the quoted account gives back its bytes, so `quote(..., safe="")` loses nothing |
| Hibp.QuoteAlphabet | darkweb-leak-finder/src/breaches/services/hibp.py:202 | the quoted path segment uses only unreserved characters, '%' and hex digits, so it cannot add a path separator |
| Hibp.NormalizeItem | darkweb-leak-finder/src/breaches/services/hibp.py:266-272 | an entry gives at most one record, which has a name |
| Hibp.NormalizeAll | darkweb-leak-finder/src/breaches/services/hibp.py:264-274 | the output is no longer than the input |
| Hibp.NormalizeAllNamed | darkweb-leak-finder/src/breaches/services/hibp.py:264-274 | every returned record has a non-empty name |
| Hibp.NormalizeAllAppend | darkweb-leak-finder/src/breaches/services/hibp.py:264-274 | the output keeps input order |
| Hibp.NormalizeAllSingleton | darkweb-leak-finder/src/breaches/services/hibp.py:266-272 | one entry is normalised on its own |
| Hibp.NormalizeAllErrorAt | darkweb-leak-finder/src/breaches/services/hibp.py:264-274 | the first entry that raises ends the loop with that error |
| Hibp.HibpClient.constructor | darkweb-leak-finder/src/breaches/services/hibp.py:124-157 | the key and user agent come stripped from the environment, the agent defaulting to "DarkWebLeakFinder/1.0"; the debug fields start as None |
| Hibp.HibpClient.Outcome | darkweb-leak-finder/src/breaches/services/hibp.py:194-274 | no key gives []; 404 gives []; 401 raises the auth error; 429 raises the rate-limit error; another 4xx/5xx raises an HTTP error; a success that is not JSON gives []; a JSON success whose body does not parse raises; a body that is not a list gives []; a list gives its normalized, nameless-dropped items |
| Hibp.HibpClient.BreachesForAccount | darkweb-leak-finder/src/breaches/services/hibp.py:159-274 | returns `Outcome`; a request is sent exactly when there is a key, for the stripped, lower-cased, percent-encoded address; records status, content type and the redacted URL; last_items is the result length |
| Hibp.NormalizeItems | darkweb-leak-finder/src/breaches/services/hibp.py:264-274 | the append loop computes `NormalizeAll` |
| Shodan.ApiKey | darkweb-leak-finder/src/breaches/services/shodan_client.py:33-45 | a non-empty settings key wins, else the environment key |
| Shodan.ResolveToIp | darkweb-leak-finder/src/breaches/services/shodan_client.py:70-92 | an IP literal is used unchanged without DNS; otherwise the DNS answer, or a resolution error |
| Shodan.Pow2 | darkweb-leak-finder/src/breaches/services/shodan_client.py:172 | the backoff is at least one second |
| Shodan.Enrich | darkweb-leak-finder/src/breaches/services/shodan_client.py:159-165 | a dict payload stays a dict |
| Shodan.EnrichKeepsOtherKeys | darkweb-leak-finder/src/breaches/services/shodan_client.py:161-165 | ip_str := str(ip) only when ip_str is absent and ip is present; every other key is unchanged |
| Shodan.Classify | darkweb-leak-finder/src/breaches/services/shodan_client.py:143-195 | a retry happens only while attempt < retries, after 1 second or 2^attempt seconds |
| Shodan.RetryFrom | darkweb-leak-finder/src/breaches/services/shodan_client.py:143-195 | between 1 and retries + 1 requests are sent from attempt 0, with one wait between consecutive requests |
| Shodan.RetryWaits | darkweb-leak-finder/src/breaches/services/shodan_client.py:171-190 | the k-th wait is 1 second or 2^(attempt + k) seconds |
| Shodan.NotFoundStops | darkweb-leak-finder/src/breaches/services/shodan_client.py:152-154 | a 404 returns no data at once, after one request |
| Shodan.AlwaysRateLimited | darkweb-leak-finder/src/breaches/services/shodan_client.py:167-180 | constant 429s use every attempt with waits 2^k and then raise |
| Shodan.AlwaysUnreachable | darkweb-leak-finder/src/breaches/services/shodan_client.py:182-195 | constant network errors use every attempt with 1-second waits and then raise |
| Shodan.HostLookup | darkweb-leak-finder/src/breaches/services/shodan_client.py:98-195 | a missing key raises before resolution or any request; a failed resolution raises before any request; at most retries + 1 requests |
| Shodan.FetchHost | darkweb-leak-finder/src/breaches/services/shodan_client.py:98-195 | computes `HostLookup`, with the resolved IP exactly when the key is set and resolution succeeds |
| Shodan.RetryLoop | darkweb-leak-finder/src/breaches/services/shodan_client.py:142-195 | the `while attempt <= retries` loop computes `RetryFrom` from attempt 0 |
| Shodan.RequestBound | darkweb-leak-finder/src/breaches/services/shodan_client.py:142-143 | no requests for negative retries, else between 1 and retries + 1 |
| Models.LogoUrl | darkweb-leak-finder/src/breaches/models.py:61-66 | "" iff logo_path is empty, else the PwnedLogos prefix followed by logo_path |
| Models.LogoUrlRoundTrip | darkweb-leak-finder/src/breaches/models.py:61-66 | removing the prefix gives back logo_path |
| Models.Database.constructor | darkweb-leak-finder/src/breaches/models.py:13-84 | the three tables start empty and satisfy the uniqueness invariants |
| Models.Database.GetOrCreateIdentity | darkweb-leak-finder/src/breaches/views.py:35 | creates a row exactly when the address is new, keeps addresses unique, and touches no other table |
| Models.Database.DeleteIdentity | darkweb-leak-finder/src/breaches/views.py:234-237 | deleting an identity deletes exactly its BreachHit rows |
| Models.Database.UpdateOrCreateHit | darkweb-leak-finder/src/breaches/models.py:50-51 | the (identity, breach_name) row is set; created iff that key was absent |
| Models.Database.UpdateOrCreateFinding | darkweb-leak-finder/src/breaches/views.py:192-202 | updates the one row with that IP, or creates one, or fails when several rows share the IP; one row per IP is preserved |
| Models.Database.DeleteFinding | darkweb-leak-finder/src/breaches/views.py:243-246 | removes exactly that row and preserves one row per IP |
| KevSources.GetJson | darkweb-leak-finder/src/security_ticker/services/sources.py:20-25 | 403 and 404 raise; the result is a value exactly for a non-error reply with a decodable body |
| KevSources.SliceTo | darkweb-leak-finder/src/security_ticker/services/sources.py:39-58 | Python slicing keeps the first `limit` elements of a list or string, and raises on other types |
| KevSources.MapCisa | darkweb-leak-finder/src/security_ticker/services/sources.py:40-46 | only dict entries map |
| KevSources.MapCisaFields | darkweb-leak-finder/src/security_ticker/services/sources.py:40-46 | the title is cveID/cve_id, else vendorProject, else "CISA KEV"; the date is the first up to 10 characters of dateAdded/date_added, else ""; the link names the CVE exactly when there is one |
| KevSources.NestedGet | darkweb-leak-finder/src/security_ticker/services/sources.py:59-60 | the nested read succeeds only on a dict |
| KevSources.MapNvd | darkweb-leak-finder/src/security_ticker/services/sources.py:59-65 | only dict entries map |
| KevSources.MapNvdFields | darkweb-leak-finder/src/security_ticker/services/sources.py:59-65 | the title is cve.id or "NVD hasKev"; the link is the detail page of the id or the NVD home page |
| KevSources.MapEntries | darkweb-leak-finder/src/security_ticker/services/sources.py:39-65 | a successful mapping has one item per entry |
| KevSources.MapEntriesSnoc | darkweb-leak-finder/src/security_ticker/services/sources.py:39-46 | one more entry appends its item, or raises its error |
| KevSources.MapEntriesErrorStays | darkweb-leak-finder/src/security_ticker/services/sources.py:39-46 | an error ends the mapping |
| KevSources.MapLoop | darkweb-leak-finder/src/security_ticker/services/sources.py:39-65 | the append loop computes `MapEntries` |
| KevSources.Attempt | darkweb-leak-finder/src/security_ticker/services/sources.py:36-65 | a feed attempt returns at most `limit` items |
| KevSources.AttemptFeed | darkweb-leak-finder/src/security_ticker/services/sources.py:36-65 | the attempt as run computes `Attempt` |
| KevSources.Settle | darkweb-leak-finder/src/security_ticker/services/sources.py:53-72 | the NVD stage never returns an empty list |
| KevSources.CisaFrom | darkweb-leak-finder/src/security_ticker/services/sources.py:34-51 | the CISA loop stops only with a non-empty item list |
| KevSources.Cascade | darkweb-leak-finder/src/security_ticker/services/sources.py:33-72 | the result is never empty |
| KevSources.CisaAttempts | darkweb-leak-finder/src/security_ticker/services/sources.py:34-36 | one attempt per CISA URL |
| KevSources.FromCisa | darkweb-leak-finder/src/security_ticker/services/sources.py:33-72 | the result is never empty |
| KevSources.FetchKevItems | darkweb-leak-finder/src/security_ticker/services/sources.py:27-72 | the loops over URLs and entries compute `FromCisa` |
| KevSources.FromCisaShape | darkweb-leak-finder/src/security_ticker/services/sources.py:47-72 | never empty; a fallback tag comes with the single placeholder; live results have at most `limit` items; a plain "fallback" tag means nothing raised |
| KevSources.CisaFromShape | darkweb-leak-finder/src/security_ticker/services/sources.py:34-51 | found items come from one bounded attempt; an exhausted loop that saw no error neither had one before nor paused |
| KevSources.CisaFromEmpty | darkweb-leak-finder/src/security_ticker/services/sources.py:34-53 | empty CISA results go on to NVD without pausing |
| KevSources.CisaFromAllRaise | darkweb-leak-finder/src/security_ticker/services/sources.py:34-53 | when every CISA URL raises, NVD decides after one pause per URL, remembering the last error |
| KevSources.CisaFirst | darkweb-leak-finder/src/security_ticker/services/sources.py:47-48 | CISA items win with tag "cisa_json", without consulting NVD |
| KevSources.BothBlocked | darkweb-leak-finder/src/security_ticker/services/sources.py:20-72 | a CISA 403 and an NVD 404 give the placeholder tagged "fallback: 404 for <NVD URL>" |
| ThreatmapConf.ConfGet | darkweb-leak-finder/src/threatmap/conf.py:48-51 | a name outside DEFAULTS raises KeyError whatever the settings |
| ThreatmapConf.KnownNames | darkweb-leak-finder/src/threatmap/conf.py:25-30 | the known names are exactly PROVIDER, CACHE_SECONDS, POINT_LIMIT and AUTO_REFRESH_MS |
| ThreatmapConf.ConfGetKnown | darkweb-leak-finder/src/threatmap/conf.py:54-57 | a value set in THREATMAP wins, even a falsy one; an unset name or a missing or empty block gives the default; a truthy non-dict block raises |
| ThreatmapConf.DefaultValues | darkweb-leak-finder/src/threatmap/conf.py:25-30 | the defaults are "cloudflare", 600, 15 and 0 |
| ThreatmapFetcher.SafeLimit | darkweb-leak-finder/src/threatmap/services/fetcher.py:41-54 | an integer >= 1 is capped at the maximum; anything else gives the capped default |
| ThreatmapFetcher.SafeLimitRange | darkweb-leak-finder/src/threatmap/services/fetcher.py:41-54 | with the defaults the limit lies in [1, 200] |
| ThreatmapFetcher.SafeTtl | darkweb-leak-finder/src/threatmap/services/fetcher.py:57-69 | a positive integer is kept; anything else gives the default, so the TTL is positive when the default is |
| ThreatmapFetcher.CacheKey | darkweb-leak-finder/src/threatmap/services/fetcher.py:121-122 | the key starts "threatmap:<provider>:<source or 'default'>:" |
| ThreatmapFetcher.CacheKeySeparatesLimits | darkweb-leak-finder/src/threatmap/services/fetcher.py:121-122 | different limits give different keys |
| ThreatmapFetcher.PointsSpec | darkweb-leak-finder/src/threatmap/services/fetcher.py:72-143 | the cache is unchanged and no request is made unless the provider is called |
| ThreatmapFetcher.PointsFrom | darkweb-leak-finder/src/threatmap/services/fetcher.py:111-143 | the cache is unchanged and no request is made unless the provider is called |
| ThreatmapFetcher.PointCache.constructor | darkweb-leak-finder/src/threatmap/services/fetcher.py:124-141 | the cache starts empty |
| ThreatmapFetcher.GetPoints | darkweb-leak-finder/src/threatmap/services/fetcher.py:37-143 | the result, the provider request and the new cache are those of `PointsSpec` on the old cache, with the token of the registry's provider (built without one, so CLOUDFLARE_API_TOKEN) |
| ThreatmapFetcher.ConfErrorFirst | darkweb-leak-finder/src/threatmap/services/fetcher.py:107-109 | a malformed THREATMAP block raises before the cache or the provider is touched |
| ThreatmapFetcher.SettingsRead | darkweb-leak-finder/src/threatmap/services/fetcher.py:107-109 | with a well-formed block the three settings are read and the rest follows from their values |
| ThreatmapFetcher.FalsyProvider | darkweb-leak-finder/src/threatmap/services/fetcher.py:112-114 | an empty or falsy provider gives [] without touching the cache |
| ThreatmapFetcher.CacheHit | darkweb-leak-finder/src/threatmap/services/fetcher.py:124-126 | a cache hit is returned without calling the provider |
| ThreatmapFetcher.CacheMissFetches | darkweb-leak-finder/src/threatmap/services/fetcher.py:116-143 | on a miss, Cloudflare is called once with the clamped limit and the source; its points are returned and stored under the key when the TTL is positive |
| ThreatmapFetcher.CalledOnlyOnMiss | darkweb-leak-finder/src/threatmap/services/fetcher.py:124-137 | the provider is called only for "cloudflare" on a cache miss |
| ThreatmapFetcher.UnknownProvider | darkweb-leak-finder/src/threatmap/services/fetcher.py:128-131 | an unknown provider gives [] and writes nothing to the cache |
| Cloudflare.UrlFor | darkweb-leak-finder/src/threatmap/providers/cloudflare.py:115-124 | the URL is API_BASE + endpoint; None or an unknown source maps to the layer7_origin endpoint and originCountryAlpha2 |
| Cloudflare.FirstListUnder | darkweb-leak-finder/src/threatmap/providers/cloudflare.py:136-140 | the first list found among the keys, in key order, if any |
| Cloudflare.FirstListValue | darkweb-leak-finder/src/threatmap/providers/cloudflare.py:143-145 | the first list among the values, if any |
| Cloudflare.ExtractRows | darkweb-leak-finder/src/threatmap/providers/cloudflare.py:126-147 | rows are found exactly when the payload and its result are dicts |
| Cloudflare.ExtractRowsOrder | darkweb-leak-finder/src/threatmap/providers/cloudflare.py:126-147 | a known key wins over any other list; [] only when the result holds no list |
| Cloudflare.FallbackPoints | darkweb-leak-finder/src/threatmap/providers/cloudflare.py:283-336 | exactly four points (US, CN, RU, IT); layer "L3" iff the source names layer3; direction "target" iff the source names target |
| Cloudflare.Fallback | darkweb-leak-finder/src/threatmap/providers/cloudflare.py:283-336 | the relabelling loops compute `FallbackPoints` |
| Cloudflare.FallbackExceedsLimit | darkweb-leak-finder/src/threatmap/providers/cloudflare.py:152-187 | without a token the result is always four points, so any limit below four is exceeded |
| Cloudflare.ProviderToken | darkweb-leak-finder/src/threatmap/providers/cloudflare.py:102-110 | the provider holds a usable token exactly when the explicit token or CLOUDFLARE_API_TOKEN is non-empty, the explicit one first |
| Cloudflare.QueryName | darkweb-leak-finder/src/threatmap/providers/cloudflare.py:194-199 | attacks_origin if the source contains "origin", attacks_target if it contains "target", else attacks_origin |
| Cloudflare.RowPoint | darkweb-leak-finder/src/threatmap/providers/cloudflare.py:243-266 | a row gives at most one point, whose country is in CENTROIDS and which carries the layer and direction |
| Cloudflare.LivePoints | darkweb-leak-finder/src/threatmap/providers/cloudflare.py:242-266 | no more points than rows, each with a known country and the URL's layer and direction |
| Cloudflare.LivePointsSnoc | darkweb-leak-finder/src/threatmap/providers/cloudflare.py:242-266 | one more row adds its point, skips it, or raises |
| Cloudflare.CollectPoints | darkweb-leak-finder/src/threatmap/providers/cloudflare.py:242-266 | the row loop computes `LivePoints` |
| Cloudflare.LivePointsNoneStays | darkweb-leak-finder/src/threatmap/providers/cloudflare.py:242-277 | an exception in the loop ends it |
| Cloudflare.FetchPoints | darkweb-leak-finder/src/threatmap/providers/cloudflare.py:152-277 | the points and the request sent are those of `FetchSpec` |
| Cloudflare.PointsFromRows | darkweb-leak-finder/src/threatmap/providers/cloudflare.py:226-277 | the row handling as run gives the points of `FromRows` |
| Cloudflare.NoTokenNoRequest | darkweb-leak-finder/src/threatmap/providers/cloudflare.py:181-187 | without a token the fallback is returned and no request is made |
| Cloudflare.LivePointsShape | darkweb-leak-finder/src/threatmap/providers/cloudflare.py:230-266 | live points number at most `limit` and at most the rows; each has a CENTROIDS country; layer "L7" iff the URL contains "layer7"; direction "origin" iff it contains "origin" |
| Cloudflare.FallbackTriggers | darkweb-leak-finder/src/threatmap/providers/cloudflare.py:226-277 | empty rows, a non-numeric value, or a zero limit give the fallback |
| Sanitizer.Escape | darkweb-leak-finder/src/breaches/templatetags/hibp_extras.py:75-94 | escaped text holds no raw '<', '>', '"' or "'" |
| Sanitizer.UnescapeChar | darkweb-leak-finder/src/breaches/templatetags/hibp_extras.py:94 | each escaped character decodes back |
| Sanitizer.EscapeRoundTrip | darkweb-leak-finder/src/breaches/templatetags/hibp_extras.py:75-94 | unescaping escaped text gives it back, so escaping loses nothing |
| Sanitizer.StepAttr | darkweb-leak-finder/src/breaches/templatetags/hibp_extras.py:65-75 | an attribute is kept exactly when its lower-cased name is allowed for the tag, it has a value, and (for href) the value is an http(s) URL; an allowed name without a value raises |
| Sanitizer.SafeAttrsRaiseStays | darkweb-leak-finder/src/breaches/templatetags/hibp_extras.py:65-75 | a raising attribute aborts the whole tag |
| Sanitizer.SafeAttrsExact | darkweb-leak-finder/src/breaches/templatetags/hibp_extras.py:65-75 | the loop raises iff some attribute raises; otherwise the kept chunks are exactly those of the kept attributes |
| Sanitizer.LinkDefaults | darkweb-leak-finder/src/breaches/templatetags/hibp_extras.py:78-82 | the link always has target and rel; supplied attributes are kept in order; at most two are added, none when both were supplied |
| Sanitizer.StartChunkCases | darkweb-leak-finder/src/breaches/templatetags/hibp_extras.py:52-85 | tags outside the allow-list emit nothing; br emits exactly "<br>"; other allowed tags emit their bare lower-cased tag |
| Sanitizer.StartChunkLink | darkweb-leak-finder/src/breaches/templatetags/hibp_extras.py:77-85 | an emitted `<a>` carries its kept attributes, space-separated, then target and rel where missing |
| Sanitizer.SuppliedRelKept | darkweb-leak-finder/src/breaches/templatetags/hibp_extras.py:63-82 | a `rel` attribute supplied on a link is kept as given, and the only default then added is a missing target: no `rel="noopener noreferrer"` |
| Sanitizer.LinkDefaultsWithRel | darkweb-leak-finder/src/breaches/templatetags/hibp_extras.py:78-82 | with a `rel=` chunk present, the link defaults add `target="_blank"` when no target is present and nothing else |
| Sanitizer.RelChunkStartsRel | darkweb-leak-finder/src/breaches/templatetags/hibp_extras.py:75 | a kept rel chunk starts with `rel=`, so the `startswith("rel=")` test sees it |
| Sanitizer.NoAttrsKept | darkweb-leak-finder/src/breaches/templatetags/hibp_extras.py:32-34 | only `a` keeps attributes |
| Sanitizer.EventChunksAppend | darkweb-leak-finder/src/breaches/templatetags/hibp_extras.py:52-97 | the chunks of two event runs are concatenated in event order |
| Sanitizer.DataIsEscaped | darkweb-leak-finder/src/breaches/templatetags/hibp_extras.py:93-94 | text becomes one escaped chunk without raw '<' or '>' that decodes back to the text |
| Sanitizer.HibpSanitizer.constructor | darkweb-leak-finder/src/breaches/templatetags/hibp_extras.py:37-50 | the sanitizer starts with no chunks |
| Sanitizer.HibpSanitizer.HandleStartTag | darkweb-leak-finder/src/breaches/templatetags/hibp_extras.py:52-85 | raises exactly when `StartChunk` does, and otherwise appends what it prescribes |
| Sanitizer.HibpSanitizer.HandleEndTag | darkweb-leak-finder/src/breaches/templatetags/hibp_extras.py:87-91 | appends "</tag>" for an allowed non-br tag, else nothing |
| Sanitizer.HibpSanitizer.HandleData | darkweb-leak-finder/src/breaches/templatetags/hibp_extras.py:93-94 | appends the escaped text |
| Sanitizer.HibpSanitizer.HandleEvent | darkweb-leak-finder/src/breaches/templatetags/hibp_extras.py:52-94 | one parser callback, or two for a self-closing tag, appends that event's output |
| Sanitizer.HibpSanitizer.Feed | darkweb-leak-finder/src/breaches/templatetags/hibp_extras.py:52-104 | raises iff some start tag raises; otherwise appends the chunks of all events in order |
| Sanitizer.EventChunksSnoc | darkweb-leak-finder/src/breaches/templatetags/hibp_extras.py:52-94 | one more event appends its output, or raises |
| Sanitizer.EventChunksRaiseStays | darkweb-leak-finder/src/breaches/templatetags/hibp_extras.py:52-94 | after a raise, nothing more is produced |
| Sanitizer.SanitizeHibpHtml | darkweb-leak-finder/src/breaches/templatetags/hibp_extras.py:100-106 | computes `SanitizeSpec`: a fresh parser is fed the value and its chunks are joined |
| Sanitizer.SanitizeEmpty | darkweb-leak-finder/src/breaches/templatetags/hibp_extras.py:102-103 | None or "" gives "" |
| Sanitizer.SanitizeInOrder | darkweb-leak-finder/src/breaches/templatetags/hibp_extras.py:96-106 | the output is the concatenation of the chunks in event order |
| TickerFilters.Tidy | darkweb-leak-finder/src/security_ticker/templatetags/breach_extras.py:66-84 | every element is non-empty and stripped, and there are no more than in the input |
| TickerFilters.TidyAppend | darkweb-leak-finder/src/security_ticker/templatetags/breach_extras.py:66-84 | order is kept |
| TickerFilters.TidyMembers | darkweb-leak-finder/src/security_ticker/templatetags/breach_extras.py:66-84 | an output element is exactly a non-empty stripped input element |
| TickerFilters.TidyOfClean | darkweb-leak-finder/src/security_ticker/templatetags/breach_extras.py:66 | clean lists are unchanged, so duplicates are kept |
| TickerFilters.Strs | darkweb-leak-finder/src/security_ticker/templatetags/breach_extras.py:66-77 | elements are stringified in place |
| TickerFilters.StrValues | darkweb-leak-finder/src/security_ticker/templatetags/breach_extras.py:65 | a list of strings as a value |
| TickerFilters.ToList | darkweb-leak-finder/src/security_ticker/templatetags/breach_extras.py:42-84 | the output is clean; None gives [] |
| TickerFilters.ToListOfClean | darkweb-leak-finder/src/security_ticker/templatetags/breach_extras.py:65-66 | a list of clean strings is returned unchanged |
| TickerFilters.ToListIdempotent | darkweb-leak-finder/src/security_ticker/templatetags/breach_extras.py:65-66 | applying the filter to its own output changes nothing |
| TickerFilters.SplitOfJoin | darkweb-leak-finder/src/security_ticker/templatetags/breach_extras.py:80 | splitting comma-joined fields without commas gives the fields back |
| TickerFilters.CsvFields | darkweb-leak-finder/src/security_ticker/templatetags/breach_extras.py:69-80 | a non-JSON comma-separated string of clean fields gives those fields |
| Email.PatternIsShape | darkweb-leak-finder/src/core/services/utils.py:32 | the regex matches iff there is exactly one '@' with text on both sides, no whitespace, and a '.' after the '@' that is neither first nor last there |
| Email.PatternToShape | darkweb-leak-finder/src/core/services/utils.py:32 | a match has that shape |
| Email.ShapeToPattern | darkweb-leak-finder/src/core/services/utils.py:32 | that shape matches |
| Email.IsValidEmail | darkweb-leak-finder/src/core/services/utils.py:35-54 | true implies a non-empty stripped value with no whitespace |
| Email.IsValidEmailPattern | darkweb-leak-finder/src/core/services/utils.py:47-54 | true exactly when the stripped value matches the regex |
| Email.BlankInvalid | darkweb-leak-finder/src/core/services/utils.py:47-52 | None and whitespace-only values are invalid |
| Email.OnlyStrippedMatters | darkweb-leak-finder/src/core/services/utils.py:50-54 | the verdict depends only on the stripped value |
| Middleware.QueryStringSizeLimit | darkweb-leak-finder/src/core/middleware.py:52-89 | the request passes, or is refused with the one 414 response |
| Middleware.QueryStringSizeLimitPasses | darkweb-leak-finder/src/core/middleware.py:45-80 | passes exactly when the query string is empty, or is at most 4096 characters, parses, and has at most 100 pairs, no value over 1024 |
| Middleware.KeysNotChecked | darkweb-leak-finder/src/core/middleware.py:75-77 | only values are length-checked; keys never change the verdict |
| Middleware.QueryStringLimit | darkweb-leak-finder/src/core/middleware.py:91-101 | refused, with 400, exactly when longer than 2048 characters |
| Middleware.ContentLength | darkweb-leak-finder/src/core/middleware.py:112-116 | a missing or non-integer header counts as 0 |
| Middleware.BodySizeLimitRejects | darkweb-leak-finder/src/core/middleware.py:106-125 | refused, with 413, exactly when the header holds an integer above 3 MiB |
| Middleware.BodySizeLimitOfNumber | darkweb-leak-finder/src/core/middleware.py:109-118 | a written length n is refused iff n > 3145728 |

## Left out

- Network, DNS and clock calls are inputs of the model: the HTTP responses,
  the DNS answer, the current time, and whether a text is an IP address.
  `time.sleep` is recorded as a list of waits (Shodan) or a count of pauses
  (the KEV ticker). The HIBP client's fixed 1.6 s sleep is not recorded.
- `json.loads`, `resp.json()`, `HTMLParser` tokenisation and `parse_qsl` are
  inputs of the model.
  - HTML is given as the sequence of parser callbacks it produces.
  - A self-closing tag is one event, which runs the start and then the end
    handler.
  - Buffering of incomplete markup by `feed` without `close` is part of what
    the event sequence stands for.
- Floating point is left out. This covers the intensity normalisation,
  `round`, `random.uniform` jitter and the CENTROIDS coordinates in
  `threatmap/providers/cloudflare.py:236-266`.
  - A point keeps its country, layer and direction only.
  - Whether a value converts with `float()` is a predicate input.
- Cloudflare.FetchPoints: a response that is not `ok` and a body that does
  not decode are a single "no payload" input. The two log lines that tell
  them apart are not modelled.
- KevSources.ErrorText: the text of an exception raised while mapping an
  entry is an input, `mappingErrorText`. The model does not reproduce
  Python's exception messages for `AttributeError` or `TypeError`.
- Json.Repr: `repr` of a string does not escape quotes or backslashes, and
  floats are not values of the model.
- Text.Lower and Text.Upper map ASCII letters only. Python's `str.lower` and
  `str.upper` also map non-ASCII letters.
- Hibp.DateYmd: `\d` is read as the ASCII digits 0-9. Python also accepts
  other Unicode decimal digits.
- Text.ParseInt accepts an optional sign and ASCII digits with surrounding
  whitespace. It does not accept the underscores that Python's `int()`
  allows between digits.
- The `max_length=200` of `breach_name` (`breaches/models.py:26`) is not
  modelled. The configured database is SQLite
  (`DarkWebLeakFinder/settings.py:156`), which does not enforce it, and no
  writer truncates names, so a stored name may be longer.
- BreachViews.PlanTarget: the upsert key is the IP as text, `str(ip)`. A
  string `ip_str`/`ip` is keyed unchanged. A non-string one, such as
  Shodan's integer `ip`, is keyed by its `str`. How the ORM's
  `GenericIPAddressField` would prepare or reject such a value
  (`breaches/views.py:192-193`, `breaches/models.py:71`) is not modelled.
- Apart from that key, the ORM stores what it is given; type coercion of field values by the
  database is not modelled.
- Cache TTL expiry is not modelled. An entry, once stored, stays until the
  process ends.
- Logging is not modelled, nor the `last_url`/`last_ct` fields beyond what
  `BreachesForAccount` states.
- The three middlewares are not registered in the project settings. They are
  modelled as standalone decisions on the request's headers.
- The regex's `$`, which also matches before a final newline, makes no
  difference: the candidate is stripped first, so it never ends in a
  newline.
- View glue is not modelled: rendering, messages, redirects, the dashboard,
  the threat-map and ticker views, settings, URLs, admin and apps.
- `add_identity`, `delete_identity` and `delete_scan` are modelled only
  through the database operations they call.
- Only one `scan_identity` or `scan_target` runs at a time in the model.

## Findings

| source | as written | input that shows it | evidently intended | confidence | as-written member | corrected member |
|---|---|---|---|---|---|---|
| darkweb-leak-finder/src/breaches/views.py:55-56 | `_safe_date` is decorated with `@login_required`. The decorator reads `.user` from its first argument, which is the date value, so every call raises `AttributeError`. `scan_identity` catches it, reports "Scan failed" and writes nothing. | any HIBP result with at least one record, e.g. one record named "Adobe" | `_safe_date` is a plain helper that returns 'YYYY-MM-DD' or None, so the scan writes its rows | not executed | BreachViews.AsWrittenScanWritesNothing | BreachViews.SafeDate |
