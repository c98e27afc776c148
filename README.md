# mailman-matt in Dafny

A verified model of the core of mailman-matt, a small Go service. The service turns a
Norwegian carrier's mail-delivery schedule for a four-digit postcode into an iCalendar feed.

A request `GET /:postCode` goes through these steps:
- It validates the postcode and looks for the calendar in a cache.
- On a miss, it discovers the schedule API's URL by scanning the carrier's HTML page for a
  configured element.
- It queries that API with the postcode.
- It parses each `"<day>. <month name>"` delivery date relative to today.
- It builds a calendar with one all-day event per date.
- It caches the calendar until the next local midnight.

The model has six modules:

- `Common` (common.dfy): `Option`, `Result`, the error kinds the pipeline can return, and the
  configuration record.
- `Decimal` (decimal.dfy): digit strings. `Value` is what `strconv.Atoi` reads. `Pad` is what
  `fmt.Sprint` and the zero-padded date layout write. Both directions are proved.
- `Dates` (dates.dfy): Go's civil-date behaviour at midnight.
  - `Normalize` is `time.Date` with its carry of out-of-range days, so "31. april" becomes 1 May.
  - `AddYear` is `AddDate(1, 0, 0)`, `NextDay` is `AddDate(0, 0, 1)`, and `Before` is strict.
  - `DayNumber` is a linear day numbering that orders dates exactly as `Before` does.
  - `Seconds` puts a local wall-clock instant on a time line.
  - `FormatYmd` is the `20060102` layout.
- `Fetch` (schedule_fetcher.go):
  - the month table, and the matcher for `(\d+)\.\s+(\w+)$` (anchored only at the end, leftmost match);
  - `ParseDate`, and the all-or-nothing `ParseAll` / `ParseRawSchedule`;
  - the token scan of `fetchAPIURL`, both as a function (`ScanTokens`) and as the loop with
    its `continue`s and `foundElement` flag (`ScanForApiUrl`);
  - the status and decoding checks of both requests;
  - `GetSchedule`, which chains the steps and stops at the first error.

  The HTTP client is a `Network` object. It returns given responses and records every call it
  serves, so its log shows which requests were made. `ParseRawSchedule` receives the per-date
  parser as a function value. At its one call site that value is `DateParser(today)`, which is
  `parseDate` with the clock reading fixed.
- `Builder` (calendar_builder.go): `buildCalendar` over mutable `Calendar` and `Event` objects,
  updated through setters as the iCalendar library's objects are. `Doc()` is the calendar's
  abstract value. `BuiltDoc` says what that value must be for a schedule.
  - Ids come from a `UuidSource` that never repeats an id.
- `Server` (web_server.go):
  - the postcode check `^\d{4}$` and its integer key;
  - the midnight TTL;
  - an expiring cache (`ExpiringCache`: key to calendar, ttl and absolute expiry second);
  - the handler (`WebServer.HandleGet`), whose cache-miss path is split into `Refresh`
    (fetch, or answer 504) and `Store` (build and cache).

  The cache keeps ttlcache's touch-on-hit, which `NewCache` (cacher.go) leaves on: every hit
  re-arms the entry to expire one ttl after the hit. So in the program as written, an entry
  that has been hit since its `Set` no longer expires at a midnight. An entry stored at 10:00
  and hit at 20:00 lives until 10:00 the next day. An entry hit at least once per ttl never
  expires. `WebServer.WithoutTouch` is the same server over a cache with touch-on-hit off.

  `WebServer.Valid()` is the invariant that every entry carries the handler's positive ttl of
  at most a day, and, with touch-on-hit off, expires at a midnight. Every handler call
  preserves it. `SameDayRepeatIsHit` uses it to show that a second request on the same day
  returns the very same calendar object. With touch-on-hit off this holds after any 200
  reply. With it on, it holds when the first request built the calendar. See "## Findings".

The model follows the code where one might expect something else:
- **DTSTAMP:** each event's `DTSTAMP` is the delivery date itself, not the time of the build.
- **Missing JSON key:** a response body that is a JSON object without `nextDeliveryDays`,
  or the JSON literal `null`, decodes to an empty list. It is not an error, so the result is
  an empty schedule and an empty calendar. Any other JSON value (an array, a string, a
  number) fails `json.Unmarshal`.
- **Day carry:** `parseDate` does not reject days that do not exist in the month; `time.Date`
  carries them into the next month. Consequently, "29. februar" read in December of a
  non-leap year becomes 1 March of the following year. Normalisation makes it 1 March of
  the current year, which is then before today and rolls over. See
  `Fetch.LeapDayInCommonYear`.

## Model

| member | source | states |
|---|---|---|
| Decimal.Value | schedule_fetcher.go:201 | definition of what `strconv.Atoi` reads from a digit string (leading zeros allowed): a value below 10^length; specified by ValueOfPad and PadOfValue |
| Decimal.ValueOfPad | schedule_fetcher.go:141 | reading back the decimal numeral of n, at any padding width, gives n |
| Decimal.PadLength | calendar_builder.go:30 | a number below 10^w is written with exactly w digits when padded to width w |
| Decimal.PadOfValue | web_server.go:99 | an all-digit string is the zero-padded numeral of its own value at its own length |
| Dates.Before | schedule_fetcher.go:217 | definition of `time.Time.Before` on dates: strictly earlier; specified by DayNumberOrder |
| Dates.DayNumberOrder | schedule_fetcher.go:217 | for valid dates, `Before` holds exactly when the first day number is smaller, and two dates are equal exactly when their day numbers are |
| Dates.Normalize | schedule_fetcher.go:214 | `time.Date(y, m, d)` for a day d >= 0 is a valid date lying d - 1 days after the first of month m, carrying into later months and years; day 0 is the last day of the month before |
| Dates.NormalizeValid | schedule_fetcher.go:214 | a date that exists is left unchanged by normalisation |
| Dates.NormalizeNotBeforeEve | schedule_fetcher.go:214 | normalising a month of year y never lands before 31 December of year y - 1 |
| Dates.NextDay | web_server.go:121 | `AddDate(0, 0, 1)` gives a valid date whose day number is one more |
| Dates.AddYear | schedule_fetcher.go:218 | `AddDate(1, 0, 0)` yields a valid date |
| Dates.AddYearOf | schedule_fetcher.go:218 | `AddDate(1, 0, 0)` keeps month and day one year later, except that 29 February becomes 1 March when the next year is not a leap year |
| Dates.SecondsOrder | web_server.go:120-123 | instants are ordered by date first, then by second of the day |
| Dates.FormatYmd | calendar_builder.go:30 | definition of `Format("20060102")`; specified by FormatYmdRoundTrip |
| Dates.FormatYmdRoundTrip | calendar_builder.go:30 | for years 0 to 9999 the `20060102` layout is eight digits and reads back as the same date |
| Fetch.MatchDate | schedule_fetcher.go:188-189 | definition of `FindStringSubmatch` for the date pattern; specified by MatchDateSound and MatchDateComplete |
| Fetch.RunStart | schedule_fetcher.go:188 | the returned position starts a run of class characters ending at hi, and the run cannot be extended to the left |
| Fetch.RunStartMinimal | schedule_fetcher.go:188 | any run of class characters ending at hi starts no earlier than the position RunStart returns |
| Fetch.MatchDateSound | schedule_fetcher.go:188-189 | the match found satisfies the pattern, and its digit group cannot be extended left, so it is the leftmost match |
| Fetch.MatchDateComplete | schedule_fetcher.go:188-189 | whenever the pattern matches anywhere, a match is found with the same dot and word and a digit group starting no later |
| Fetch.ResolveDate | schedule_fetcher.go:195-219 | a successful month lookup, `Atoi` and year choice gives a valid date that is not before today |
| Fetch.RolledNotBefore | schedule_fetcher.go:216-219 | a date before today but not before 31 December of last year (where normalisation can put it) is, after adding a year, no longer before today |
| Fetch.ParseDate | schedule_fetcher.go:185-222 | a parsed delivery date is a valid date, never strictly before today |
| Fetch.ParseDateBadFormat | schedule_fetcher.go:188-192 | `parseDate` fails with "could not parse date" exactly when the pattern matches nowhere in the string |
| Fetch.ParseDateOfParts | schedule_fetcher.go:188-192 | a string ending in digits, a dot, whitespace and a word, after any prefix not ending in a digit (a weekday, say), is resolved from exactly those digits and that word |
| Fetch.MonthTable | schedule_fetcher.go:195-198 | only the twelve lower-case Norwegian names map to months; they map to twelve distinct months in 1..12; any other word, "September" included, fails with "could not parse month" |
| Fetch.ResolveDateYear | schedule_fetcher.go:207-219 | for a day that exists in the month, the date is in today's year when it is today or later, and otherwise one year later |
| Fetch.ParseFourSeptember | schedule_fetcher.go:185-222 | "4. september" is 4 September of today's year unless that day has passed, and otherwise 4 September of the next year |
| Fetch.FourSeptemberParts | schedule_fetcher.go:188-192 | "4. september" is split into the day "4" and the month word "september" |
| Fetch.FourSeptemberResolves | schedule_fetcher.go:195-219 | day "4" of "september" resolves to 4 September of this year, or of the next year once that day has passed |
| Fetch.FourSeptember | schedule_fetcher.go:185-222 | read on 10 January 2025 it is 4 September 2025; read on 1 October 2025 it is 4 September 2026 |
| Fetch.LeapDayInCommonYear | schedule_fetcher.go:214-218 | "29. februar" read on 20 December 2027 is 1 March 2028, not 29 February 2028 |
| Fetch.LeapDayResolves | schedule_fetcher.go:195-219 | day "29" of "februar" in December 2027 resolves to 1 March 2028 |
| Fetch.LeapDayNormalizes | schedule_fetcher.go:214-218 | 29 February 2027 normalises to 1 March 2027, and a year later that is 1 March 2028 |
| Fetch.ParseAll | schedule_fetcher.go:170-183 | a successful schedule has one date per input string, and date i is the parse of string i |
| Fetch.ParseAllOk | schedule_fetcher.go:174-182 | when every string parses, the schedule is exactly the parsed dates in input order |
| Fetch.ParseAllFirstError | schedule_fetcher.go:174-178 | the first string that fails makes the whole schedule fail with that string's error, never a partial schedule |
| Fetch.ParseAllOkIff | schedule_fetcher.go:170-183 | the schedule parses exactly when every string does; empty input gives an empty schedule |
| Fetch.ParsedScheduleValid | schedule_fetcher.go:174-180 | every date of a parsed schedule is valid and not before today |
| Fetch.ParseRawSchedule | schedule_fetcher.go:170-183 | the loop returns exactly the all-or-nothing parse of the list |
| Fetch.ScanTokens | schedule_fetcher.go:86-124 | definition of the token scan as a function; specified by ScanFindsFirst, ScanNotFound and ScanSkips, and implemented by ScanForApiUrl |
| Fetch.FirstValue | schedule_fetcher.go:112-113 | there is no value exactly when no attribute has the key |
| Fetch.FirstValueAt | schedule_fetcher.go:112-113 | the value found is that of the first attribute with the key |
| Fetch.ScanFindsFirst | schedule_fetcher.go:86-122 | the scan resolves the path attribute of the first start tag with the configured name and id that carries that attribute |
| Fetch.ScanNotFound | schedule_fetcher.go:86-124 | with no such token the scan ends with `io.EOF` |
| Fetch.ScanSkips | schedule_fetcher.go:93-109 | removing a non-candidate token changes nothing: text, end or self-closing tags, other elements, or the right element without the path attribute |
| Fetch.ScanForApiUrl | schedule_fetcher.go:86-124 | the token loop, with its `continue`s and `foundElement` flag, returns exactly the scan's outcome |
| Fetch.Network.GetPage | schedule_fetcher.go:73 | the page GET returns the page's response and is recorded in the log |
| Fetch.Network.Do | schedule_fetcher.go:145 | the API call returns the response for that request and is recorded in the log |
| Fetch.Discover | schedule_fetcher.go:72-125 | definition of `fetchAPIURL` on the page response: transport error, then the status check, then the scan; specified by StatusMustBe200 and ScheduleOkIff, and implemented by FetchApiUrl |
| Fetch.RequestFor | schedule_fetcher.go:139-142 | definition of the API request: the discovered URL with its query replaced by the one postcode parameter; specified by QueryDropsLeadingZeros |
| Fetch.Decode | schedule_fetcher.go:145-167 | definition of `fetchSchedule` on the API response: transport error, then the status check, then the body read and decode; specified by StatusMustBe200 and ScheduleOkIff, and implemented by FetchSchedule |
| Fetch.StatusMustBe200 | schedule_fetcher.go:80-82 | any status other than exactly 200 is an error, both for the page and for the API |
| Fetch.ScheduleOf | schedule_fetcher.go:53-70 | a schedule GetSchedule returns consists of valid dates |
| Fetch.ScheduleOkIff | schedule_fetcher.go:53-70 | GetSchedule succeeds exactly when all of these hold: the page answers 200; the scan finds the endpoint; the API answers 200 with a decodable body; every date in it parses |
| Fetch.QueryDropsLeadingZeros | schedule_fetcher.go:141 | postcode 150 is sent as "150": `fmt.Sprint` writes no leading zeros |
| Fetch.ScheduleFetcher.FetchApiUrl | schedule_fetcher.go:72-125 | the result is the page's transport or status error, or otherwise the scan's outcome, after exactly one page request |
| Fetch.ScheduleFetcher.FetchSchedule | schedule_fetcher.go:127-168 | sends one API request (the URL with its query replaced by the postcode parameter); then a transport error, a status other than 200, or a body that fails to read or decode is an error, in that order |
| Fetch.ScheduleFetcher.GetSchedule | schedule_fetcher.go:53-70 | returns ScheduleOf for the two responses; the API is called only after discovery succeeded |
| Builder.UuidText | calendar_builder.go:27 | definition of the text of the n-th id the source yields; specified by IdRangeFresh and UuidSource.New |
| Builder.IdRangeFresh | calendar_builder.go:27 | the ids of one build are pairwise distinct and differ from every id drawn before |
| Builder.UuidSource.New | calendar_builder.go:27 | each call yields an id never yielded before |
| Builder.Event.constructor | calendar_builder.go:27 | a new event carries only its UID |
| Builder.Event.SetProperty | calendar_builder.go:28-33 | sets one event property and leaves the others |
| Builder.Calendar.constructor | calendar_builder.go:19 | a new calendar has no properties and no events |
| Builder.Calendar.SetProperty | calendar_builder.go:20-24 | sets one calendar property and leaves the others and the events |
| Builder.Calendar.AddEvent | calendar_builder.go:27 | appends one fresh event with the UID and returns it |
| Builder.SetEventProperties | calendar_builder.go:28-33 | after the setter calls the event holds exactly the properties EventDoc lists |
| Builder.BuiltDocEvents | calendar_builder.go:26-34 | the calendar has one event per date, in schedule order. Each event has its id, sequence 0, the configured summary verbatim, its date as DTSTAMP, and both all-day flags "TRUE" |
| Builder.BuiltDocDtStart | calendar_builder.go:30 | `DTSTART;VALUE=DATE` is eight digits that read back as the event's date |
| Builder.BuiltDocDistinctIds | calendar_builder.go:27 | the events of one build have pairwise distinct UIDs |
| Builder.BuiltDocMetadata | calendar_builder.go:19-24 | the metadata comes only from the configuration: the product id, the name twice and the timezone twice; an empty schedule gives no events |
| Builder.CalendarBuilder.BuildCalendar | calendar_builder.go:18-37 | returns a fresh calendar whose value is BuiltDoc for the schedule and the next ids of the source, which advances by one id per date |
| Server.IsValidPostCode | web_server.go:88-94 | definition of the route's check `^\d{4}$`: exactly four ASCII digits; specified by PostCodeKeyBijective |
| Server.PostCodeKey | web_server.go:99 | the key of an accepted postcode is below 10000, and the four-digit padding of the key is the postcode |
| Server.PostCodeKeyBijective | web_server.go:99 | distinct accepted postcodes have distinct keys, and each key 0..9999 belongs to exactly one accepted postcode |
| Server.LeadingZeroKey | web_server.go:99 | "0150" is accepted and has key 150 |
| Server.MidnightTtl | web_server.go:120-123 | the TTL is positive, at most one day, and ends at the first second of the next day |
| Server.MidnightExpiry | web_server.go:120-128 | the expiry that `Set` gives an entry is a midnight; a later hit re-arms it under touch-on-hit |
| Server.NextMidnight | web_server.go:120-123 | a midnight later than t is no earlier than the midnight that ends t's day |
| Server.ExpiryAlignment | web_server.go:120-128 | the expiry that `Set` gives an entry stored at `now` has passed at a valid time t exactly when t falls on a later day; under touch-on-hit this holds until the entry's first hit |
| Server.ExpiringCache.constructor | cacher.go:13 | a new cache is empty, with touch-on-hit as chosen |
| Server.ExpiringCache.Get | web_server.go:103 | finds a value exactly when the key has a live entry (one with a ttl of zero or less never expires), and returns that entry's value; a hit under touch-on-hit re-arms the entry to expire one ttl after now; a miss changes nothing |
| Server.ExpiringCache.Set | web_server.go:128 | stores the value under the key with its ttl and expiry now + ttl, and leaves the other keys untouched |
| Server.TouchOutlivesMidnight | cacher.go:13 | with touch-on-hit, an entry stored at `now` and hit later that day is still served on the next day, past the midnight its ttl was computed for |
| Server.TouchOutlivesMidnightExample | cacher.go:13 | stored at 10:00 on 14 October 2026 and hit at 20:00, the entry is still served at 09:00 on 15 October |
| Server.NoTouchExpiresAtMidnight | web_server.go:120-128 | without touch-on-hit, an entry stored at `now` and hit later that day is gone on every later day |
| Server.WebServer.constructor | web_server.go:34-41 | the server starts with an empty cache, with touch-on-hit on as `NewCache` leaves it, and the invariant holds |
| Server.WebServer.WithoutTouch | web_server.go:34-41 | the same server over a cache with touch-on-hit off (`WithDisableTouchOnHit`) starts empty, with the invariant |
| Server.WebServer.ScheduleFor | web_server.go:110 | what the fetcher yields for a key and a day consists of valid dates |
| Server.WebServer.Store | web_server.go:117-128 | builds the calendar for the schedule and stores it under the key until the next midnight, keeping the invariant |
| Server.WebServer.Refresh | web_server.go:110-128 | on a miss: a failed fetch answers 504 and changes neither the cache nor the ids; a successful one stores exactly the freshly built calendar under the key |
| Server.WebServer.HandleGet | web_server.go:91-138 | see note 1 below the table |
| Server.SameDayRepeatIsHit | web_server.go:103-128 | a second request for the same postcode later on the same day, after a first request answered 200, gets the same reply with the same calendar object: always without touch-on-hit, and with it when the first request built the calendar |

1. Server.WebServer.HandleGet states:
   - An invalid postcode gets 400 "invalid postcode", leaving the cache and the network untouched.
   - A hit returns the stored calendar. Under touch-on-hit it re-arms the entry to expire one ttl after now. It changes nothing else.
   - A miss requests the page, then the API.
   - A failed fetch gets 504, with nothing cached.
   - A successful fetch caches one freshly built calendar under the key until midnight.
   - The reply is 200 exactly on a hit or a successful build.
   - `Valid()` is preserved.

## Findings

| source | as written | input that shows it | evidently intended | confidence | as-written member | corrected member |
|---|---|---|---|---|---|---|
| cacher.go:13, web_server.go:103 | the cache is `ttlcache.New` without `WithDisableTouchOnHit`, so every hit re-arms an entry to expire one ttl after the hit | store at 10:00 on day D (ttl 14 h), hit at 20:00 on D, request at 09:00 on D+1: still a hit, serving the calendar built on D | the ttl "until midnight" at web_server.go:120-123 ends the entry's life at the midnight after its `Set` | medium; not executed; rests on ttlcache v3 re-arming on `Get` by default, and ttlcache's source is not part of this model | Server.TouchOutlivesMidnight, Server.TouchOutlivesMidnightExample | Server.NoTouchExpiresAtMidnight, Server.WebServer.WithoutTouch, Server.SameDayRepeatIsHit |

## Left out

- Network and body I/O are left out: `http.Get`, `client.Do`, `io.ReadAll`, the request
  headers, and the unused context. They are replaced by the `Network` oracle with given responses.
  - A failed read of the page body ends the token sequence, as the tokenizer's `ErrorToken` does. The scan then returns `io.EOF`, or the URL if the element came before the failure.
  - A failed read of the API body is checked after the status, as in the code, and gives the same error kind as an undecodable body.
- Fetch.RequestFor: the URL is kept as the discovered text with the parameter beside it. The model does not rewrite it. Go assigns `RawQuery`, so any query the discovered URL carried is dropped from the request, and `url.Values.Encode` escapes the parameter.
- Failure of `http.NewRequestWithContext` is left out. The model assumes the discovered URL always forms a request.
- The HTML tokenizer, `json.Unmarshal`, `url.Parse` and `ResolveReference` are foreign
  libraries. The model works on the tokenizer's token sequence and on the decoded list. The resolver `resolve` is a given function that yields nothing when `url.Parse` fails.
- Fetch.ParseDate: the code reads the clock once per date. The model fixes one `today` for the whole request, so a request that crosses midnight is not modelled.
- Time zones and daylight saving are left out. `Seconds` is a linear local time line, so Server.MidnightTtl's bound of one day is the non-DST case. On a DST transition day Go's TTL differs by the shift.
- The 64-bit limits of `time.Date` for astronomically large days are left out. Dates.Normalize uses unbounded integers. The day value is still bounded by `strconv.Atoi`'s range check, which is modelled as the `DayOutOfRange` error.
- Server.ExpiringCache.Get: the model closes the expiry boundary at `now >= expiresAt`, and the lookup, the touch and the handler's ttl all read one clock value `now`. The background eviction goroutine, the LRU order and the logging callbacks (cacher.go) are not modelled. An expired entry is simply no longer seen.
- Concurrency is left out: concurrent misses for one key racing on `Set`.
- The server plumbing is left out: echo setup, middleware, logging, `Start` and `Stop`.
- The `Date` response header is left out, because its value comes from the clock.
- ics serialization (`cal.Serialize`) and the library's own default properties are left out. The calendar is modelled by the properties the builder sets.
- Builder.UuidSource.New: random UUIDs are modelled as a counter rendered in decimal. Only their distinctness is relied on.
- config.go is not part of this model: it only parses and dumps environment variables.
- main.go is not part of this model: it is a stale debug client.
- fetcher.go is not part of this model: it is a superseded duplicate of the fetcher.
