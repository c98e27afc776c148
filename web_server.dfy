/** The GET /:postCode handler: postcode validation, the cache-aside lookup, fetch and build
    on a miss, and an expiry at the next local midnight. */
module Server {
  import opened Common
  import opened Decimal
  import opened Dates
  import opened Fetch
  import opened Builder

  /** The route's check `^\d{4}$`: exactly four ASCII digits. */
  predicate IsValidPostCode(s: string) { |s| == 4 && AllDigits(s) }

  /** strconv.Atoi of an accepted postcode, used as the cache key and sent upstream. */
  function PostCodeKey(s: string): (k: nat)
    requires IsValidPostCode(s)
    ensures k < 10000 && Pad(k, 4) == s
  {
    PadOfValue(s);
    Value(s)
  }

  /** Distinct accepted postcodes have distinct keys, and every key 0..9999 is one postcode's. */
  lemma {:induction false} PostCodeKeyBijective(a: string, b: string, k: nat)
    requires IsValidPostCode(a) && IsValidPostCode(b) && k < 10000
    ensures PostCodeKey(a) == PostCodeKey(b) ==> a == b
    ensures IsValidPostCode(Pad(k, 4)) && PostCodeKey(Pad(k, 4)) == k
  {
    PadLength(k, 4);
    ValueOfPad(k, 4);
  }

  /** "0150" is key 150: the leading zero is dropped from the value. */
  lemma LeadingZeroKey()
    ensures IsValidPostCode("0150") && PostCodeKey("0150") == 150
  {
    assert "0150"[..3] == "015" && "015"[..2] == "01" && "01"[..1] == "0" && "0"[..0] == [];
  }

  /** The cache duration: tomorrow's midnight (now.AddDate(0, 0, 1) at 00:00) minus now. */
  function MidnightTtl(now: Instant): (ttl: int)
    requires ValidInstant(now)
    ensures 0 < ttl <= 86400
    ensures Seconds(now) + ttl == DayNumber(now.date) * 86400 + 86400
  {
    var tomorrow := NextDay(now.date);
    var tomorrowMidnight := Instant(tomorrow, 0);
    Seconds(tomorrowMidnight) - Seconds(now)
  }

  /** The expiry an entry gets is a midnight. */
  lemma MidnightExpiry(now: Instant)
    requires ValidInstant(now)
    ensures (Seconds(now) + MidnightTtl(now)) % 86400 == 0
  {
    MultipleOfDay(DayNumber(now.date) + 1);
  }

  lemma MultipleOfDay(n: int)
    ensures (n * 86400) % 86400 == 0
  {
    var q, r := (n * 86400) / 86400, (n * 86400) % 86400;
    assert n * 86400 == 86400 * q + r && 0 <= r < 86400;
    assert 86400 * (n - q) == r;
  }

  /** A midnight later than t is no earlier than the midnight that ends t's day. */
  lemma NextMidnight(e: int, t: Instant)
    requires ValidInstant(t) && e % 86400 == 0 && Seconds(t) < e
    ensures DayNumber(t.date) * 86400 + 86400 <= e
  {
    var k, d := e / 86400, DayNumber(t.date);
    assert e == 86400 * k;
    assert 86400 * (k - d) > t.second;
  }

  /** An entry stored at `now` is expired at a valid time t exactly when t falls on a later
      day than now: it lives through the rest of now's day and dies at the next midnight. */
  lemma {:induction false} ExpiryAlignment(now: Instant, t: Instant)
    requires ValidInstant(now) && ValidInstant(t)
    ensures Seconds(t) >= Seconds(now) + MidnightTtl(now) <==> Before(now.date, t.date)
  {
    DayNumberOrder(now.date, t.date);
  }

  /** A cache entry: the calendar, the ttl given to Set, and the absolute expiry second. */
  datatype Entry = Entry(value: Calendar, ttl: int, expiresAt: int)

  /** The entry after a hit at `now` re-arms it: an entry with a positive ttl then expires
      ttl seconds after the hit. */
  function Touched(e: Entry, now: Instant): Entry
    requires 1 <= now.date.month <= 12
  {
    if e.ttl > 0 then e.(expiresAt := Seconds(now) + e.ttl) else e
  }

  /** The expiring cache (ttlcache): key to entry. An entry with a positive ttl is seen by a
      lookup strictly before its expiry and not at or after it; one whose ttl is zero or less
      never expires. With `touchOnHit`, ttlcache's default, every hit re-arms the entry. */
  class ExpiringCache {
    const touchOnHit: bool
    var entries: map<int, Entry>

    constructor (touchOnHit: bool)
      ensures this.touchOnHit == touchOnHit && entries == map[]
    {
      this.touchOnHit := touchOnHit;
      entries := map[];
    }

    predicate Live(key: int, now: Instant)
      reads this
      requires 1 <= now.date.month <= 12
    {
      key in entries && (entries[key].ttl <= 0 || Seconds(now) < entries[key].expiresAt)
    }

    /** Get(key): the value of a live entry, which a hit re-arms when touch-on-hit is on. */
    method Get(key: int, now: Instant) returns (r: Option<Calendar>)
      requires 1 <= now.date.month <= 12
      modifies this
      ensures r.Some? <==> old(Live(key, now))
      ensures r.Some? ==> r.value == old(entries[key].value)
      ensures entries == if r.Some? && touchOnHit
                         then old(entries)[key := Touched(old(entries[key]), now)]
                         else old(entries)
      ensures r.None? ==> unchanged(this)
    {
      if Live(key, now) {
        r := Some(entries[key].value);
        if touchOnHit {
          entries := entries[key := Touched(entries[key], now)];
        }
      } else {
        r := None;
      }
    }

    /** Set(key, value, ttl): the entry expires ttl seconds after now; other keys are untouched. */
    method Set(key: int, value: Calendar, ttl: int, now: Instant)
      requires 1 <= now.date.month <= 12
      modifies this
      ensures entries == old(entries)[key := Entry(value, ttl, Seconds(now) + ttl)]
    {
      entries := entries[key := Entry(value, ttl, Seconds(now) + ttl)];
    }
  }

  /** With touch-on-hit, as NewCache builds the cache: an entry stored at `now` and hit later
      that day is still served on the next day, after the midnight its ttl was computed for. */
  method TouchOutlivesMidnight(cal: Calendar, now: Instant, hit: Instant, later: Instant)
    returns (r: Option<Calendar>)
    requires ValidInstant(now) && ValidInstant(hit) && ValidInstant(later)
    requires hit.date == now.date && later.date == NextDay(now.date)
    requires later.second < hit.second - now.second
    ensures Before(now.date, later.date) && r == Some(cal)
  {
    var cache := new ExpiringCache(true);
    cache.Set(0, cal, MidnightTtl(now), now);
    var first := cache.Get(0, hit);
    r := cache.Get(0, later);
    DayNumberOrder(now.date, later.date);
  }

  /** The finding's input: stored at 10:00 on 14 October 2026, hit at 20:00, and still
      served at 09:00 on 15 October. */
  method TouchOutlivesMidnightExample(cal: Calendar) returns (r: Option<Calendar>)
    ensures r == Some(cal)
  {
    var day := Date(2026, 10, 14);
    var next := Date(2026, 10, 15);
    NormalizeValid(next);
    r := TouchOutlivesMidnight(cal, Instant(day, 36000), Instant(day, 72000), Instant(next, 32400));
  }

  /** Without touch-on-hit the same calls find nothing on any later day: the entry dies at
      the midnight after its Set, however often it was hit. */
  method NoTouchExpiresAtMidnight(cal: Calendar, now: Instant, hit: Instant, later: Instant)
    returns (r: Option<Calendar>)
    requires ValidInstant(now) && ValidInstant(hit) && ValidInstant(later)
    requires hit.date == now.date && Before(now.date, later.date)
    ensures r == None
  {
    var cache := new ExpiringCache(false);
    cache.Set(0, cal, MidnightTtl(now), now);
    var first := cache.Get(0, hit);
    r := cache.Get(0, later);
    ExpiryAlignment(now, later);
  }

  datatype Body = PlainText(text: string) | CalendarBody(cal: Calendar)

  datatype Reply = Reply(status: int, headers: map<string, string>, body: Body)

  /** The headers the handler sets on a calendar reply (the Date header is left out). */
  const CalendarHeaders: map<string, string> := map[
    "Content-Type" := "text/calendar; charset=utf-8",
    "Content-Disposition" := "attachment; filename=calendar.ics",
    "Connection" := "keep-alive",
    "Keep-Alive" := "timeout=5, max=1000"]

  function BadRequest(): Reply { Reply(400, map[], PlainText("invalid postcode")) }

  function GatewayTimeout(): Reply
  {
    Reply(504, map[], PlainText("operation timed out while fetching schedule"))
  }

  function CalendarReply(cal: Calendar): Reply { Reply(200, CalendarHeaders, CalendarBody(cal)) }

  /** The WebServer object with its fetcher, builder and cache. */
  class WebServer {
    const cfg: Config
    const fetcher: ScheduleFetcher
    const builder: CalendarBuilder
    const cache: ExpiringCache

    /** Every cached entry carries the handler's ttl, positive and at most a day; without
        touch-on-hit every entry also expires at a midnight. */
    ghost predicate Valid()
      reads cache
    {
      forall k :: k in cache.entries ==>
        && 0 < cache.entries[k].ttl <= 86400
        && (!cache.touchOnHit ==> cache.entries[k].expiresAt % 86400 == 0)
    }

    /** NewWebServer, whose NewCache is ttlcache.New with its defaults: touch-on-hit is on. */
    constructor (cfg: Config, fetcher: ScheduleFetcher, builder: CalendarBuilder)
      ensures this.cfg == cfg && this.fetcher == fetcher && this.builder == builder
      ensures fresh(cache) && cache.touchOnHit && cache.entries == map[] && Valid()
    {
      this.cfg := cfg;
      this.fetcher := fetcher;
      this.builder := builder;
      cache := new ExpiringCache(true);
    }

    /** The server over a cache built with WithDisableTouchOnHit, so that an entry lives
        exactly until the midnight after its Set. */
    constructor WithoutTouch(cfg: Config, fetcher: ScheduleFetcher, builder: CalendarBuilder)
      ensures this.cfg == cfg && this.fetcher == fetcher && this.builder == builder
      ensures fresh(cache) && !cache.touchOnHit && cache.entries == map[] && Valid()
    {
      this.cfg := cfg;
      this.fetcher := fetcher;
      this.builder := builder;
      cache := new ExpiringCache(false);
    }

    /** What GetSchedule yields for this key when the clock reads `today`. */
    function ScheduleFor(key: nat, today: Date): (r: Result<seq<Date>>)
      requires ValidDate(today)
      ensures r.Ok? ==> AllValid(r.value)
    {
      ScheduleOf(fetcher.net.page, fetcher.net.api, fetcher.cfg, fetcher.resolve, key, today)
    }

    /** The cache-miss path of the handler: fetch the schedule, answer 504 if that fails,
        otherwise build the calendar, store it under `key` until the next midnight and
        serve it. */
    method Refresh(key: nat, now: Instant) returns (resp: Reply)
      requires Valid() && ValidInstant(now)
      modifies cache, fetcher.net, builder.ids
      ensures Valid()
      ensures fetcher.net.log == old(fetcher.net.log)
                + CallsOf(fetcher.net.page, fetcher.cfg, fetcher.resolve, key)
      ensures ScheduleFor(key, now.date).Err? ==>
        resp == GatewayTimeout() && unchanged(cache, builder.ids)
      ensures ScheduleFor(key, now.date).Ok? ==>
        var sch := ScheduleFor(key, now.date).value;
        && resp.body.CalendarBody? && resp == CalendarReply(resp.body.cal) && fresh(resp.body.cal)
        && resp.body.cal.Doc() == BuiltDoc(builder.cfg, sch, IdRange(old(builder.ids.count), |sch|))
        && builder.ids.count == old(builder.ids.count) + |sch|
        && cache.entries == old(cache.entries)[key :=
             Entry(resp.body.cal, MidnightTtl(now), Seconds(now) + MidnightTtl(now))]
    {
      var sch := fetcher.GetSchedule(key, now.date);
      assert sch == ScheduleFor(key, now.date);
      if sch.Err? {
        return GatewayTimeout();
      }
      var cal := Store(key, sch.value, now);
      return CalendarReply(cal);
    }

    /** Builds the calendar for a fetched schedule and caches it under `key` until the next
        midnight. */
    method Store(key: nat, sch: seq<Date>, now: Instant) returns (cal: Calendar)
      requires Valid() && ValidInstant(now) && AllValid(sch)
      modifies cache, builder.ids
      ensures Valid()
      ensures fresh(cal) && cal.Doc() == BuiltDoc(builder.cfg, sch, IdRange(old(builder.ids.count), |sch|))
      ensures builder.ids.count == old(builder.ids.count) + |sch|
      ensures cache.entries ==
        old(cache.entries)[key := Entry(cal, MidnightTtl(now), Seconds(now) + MidnightTtl(now))]
    {
      cal := builder.BuildCalendar(sch);
      ghost var doc := cal.Doc();
      var ttl := MidnightTtl(now);
      MidnightExpiry(now);
      cache.Set(key, cal, ttl, now);
      assert cal.Doc() == doc;
    }

    /** GET /:postCode at local time `now`. */
    method HandleGet(postCode: string, now: Instant) returns (resp: Reply)
      requires Valid() && ValidInstant(now)
      modifies cache, fetcher.net, builder.ids
      ensures Valid()
      // an invalid postcode is refused before the cache or the fetcher is touched
      ensures !IsValidPostCode(postCode) ==>
        resp == BadRequest() && unchanged(cache, fetcher.net, builder.ids)
      // a hit answers with the stored calendar, re-arms the entry under touch-on-hit, and
      // changes nothing else
      ensures IsValidPostCode(postCode) && old(cache.Live(PostCodeKey(postCode), now)) ==>
        var key := PostCodeKey(postCode);
        && resp == CalendarReply(old(cache.entries[key].value))
        && unchanged(fetcher.net, builder.ids)
        && cache.entries == if cache.touchOnHit
                            then old(cache.entries)[key := Touched(old(cache.entries[key]), now)]
                            else old(cache.entries)
      // a miss discovers the endpoint afresh and queries it
      ensures IsValidPostCode(postCode) && !old(cache.Live(PostCodeKey(postCode), now)) ==>
        fetcher.net.log == old(fetcher.net.log)
          + CallsOf(fetcher.net.page, fetcher.cfg, fetcher.resolve, PostCodeKey(postCode))
      // a failed fetch answers 504 and caches nothing
      ensures IsValidPostCode(postCode) && !old(cache.Live(PostCodeKey(postCode), now))
              && ScheduleFor(PostCodeKey(postCode), now.date).Err? ==>
        resp == GatewayTimeout() && unchanged(cache, builder.ids)
      // a successful fetch builds one calendar and stores it under the key until midnight
      ensures IsValidPostCode(postCode) && !old(cache.Live(PostCodeKey(postCode), now))
              && ScheduleFor(PostCodeKey(postCode), now.date).Ok? ==>
        var sch := ScheduleFor(PostCodeKey(postCode), now.date).value;
        && resp.body.CalendarBody? && resp == CalendarReply(resp.body.cal) && fresh(resp.body.cal)
        && resp.body.cal.Doc() == BuiltDoc(builder.cfg, sch, IdRange(old(builder.ids.count), |sch|))
        && builder.ids.count == old(builder.ids.count) + |sch|
        && cache.entries == old(cache.entries)[PostCodeKey(postCode) :=
             Entry(resp.body.cal, MidnightTtl(now), Seconds(now) + MidnightTtl(now))]
      // a calendar is served only after a hit or a successful build
      ensures resp.status == 200 <==>
        IsValidPostCode(postCode) &&
        (old(cache.Live(PostCodeKey(postCode), now)) || ScheduleFor(PostCodeKey(postCode), now.date).Ok?)
    {
      if !IsValidPostCode(postCode) {
        return BadRequest();
      }
      var postCodeInt := Value(postCode);
      assert postCodeInt == PostCodeKey(postCode);
      var item := cache.Get(postCodeInt, now);
      if item.Some? {
        return CalendarReply(item.value);
      }
      resp := Refresh(postCodeInt, now);
    }
  }

  /** Two requests for one postcode on the same local day, the first answered with a
      calendar: without touch-on-hit the second gets the very same calendar object, a hit.
      With it, that still holds when the first request built the calendar; after a hit the
      re-armed entry may die earlier in the day (see TouchOutlivesMidnight). */
  method SameDayRepeatIsHit(s: WebServer, postCode: string, t1: Instant, t2: Instant)
    returns (r1: Reply, r2: Reply)
    requires s.Valid() && ValidInstant(t1) && ValidInstant(t2)
    requires t1.date == t2.date && t1.second <= t2.second
    modifies s.cache, s.fetcher.net, s.builder.ids
    ensures r1.status == 200 && !s.cache.touchOnHit ==> r2 == r1
    ensures (r1.status == 200 && IsValidPostCode(postCode)
             && !old(s.cache.Live(PostCodeKey(postCode), t1))) ==> r2 == r1
  {
    ghost var missed := IsValidPostCode(postCode) && !s.cache.Live(PostCodeKey(postCode), t1);
    r1 := s.HandleGet(postCode, t1);
    if r1.status == 200 && (!s.cache.touchOnHit || missed) {
      var key := PostCodeKey(postCode);
      assert s.cache.entries[key].value == r1.body.cal;
      assert s.cache.Live(key, t2) by {
        var e := s.cache.entries[key].expiresAt;
        MidnightExpiry(t1);
        assert Seconds(t1) < e && e % 86400 == 0;
        NextMidnight(e, t1);
      }
    }
    r2 := s.HandleGet(postCode, t2);
  }
}
