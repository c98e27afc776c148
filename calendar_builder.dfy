/** The calendar builder: one all-day event per delivery date, with calendar metadata from
    the configuration. The calendar and its events are objects updated through setters, as
    the iCalendar library's are. */
module Builder {
  import opened Common
  import opened Decimal
  import opened Dates

  /** A property value: text, or the time given to SetDtStampTime (kept as the date itself;
      its UTC rendering is the library's business). */
  datatype PropValue = Text(text: string) | Stamp(date: Date)

  /** Calendar-level properties, one per library setter the builder calls. */
  datatype CalendarKey = ProductId | Name | XWRCalName | TimezoneId | XWRTimezone

  /** Event properties: those with a dedicated setter, and those set by name. */
  datatype EventKey = Uid | Sequence | DtStamp | Summary | Named(name: string)

  const DtStartDate := "DTSTART;VALUE=DATE"
  const CdoAllDay := "X-MICROSOFT-CDO-ALLDAYEVENT"
  const MsnAllDay := "X-MICROSOFT-MSNCALENDAR-ALLDAYEVENT"

  /** The text uuid.New().String() yields for the n-th id drawn; any never-repeating source
      would do, and a counter rendered in decimal is one. */
  function UuidText(n: nat): string { Pad(n, 1) }

  /** The ids a build starting at counter `start` draws for n events. */
  function IdRange(start: nat, n: nat): (ids: seq<string>)
    ensures |ids| == n && forall i :: 0 <= i < n ==> ids[i] == UuidText(start + i)
  {
    seq(n, i requires 0 <= i < n => UuidText(start + i))
  }

  /** Ids drawn in one build are pairwise distinct and differ from every id drawn before. */
  lemma IdRangeFresh(start: nat, n: nat)
    ensures forall i, j :: 0 <= i < j < n ==> IdRange(start, n)[i] != IdRange(start, n)[j]
    ensures forall i, k :: 0 <= i < n && 0 <= k < start ==> IdRange(start, n)[i] != UuidText(k)
  {
    forall a: nat, b: nat | a != b ensures UuidText(a) != UuidText(b) {
      ValueOfPad(a, 1);
      ValueOfPad(b, 1);
    }
  }

  /** The uuid generator: each call yields an id never yielded before. */
  class UuidSource {
    var count: nat

    constructor ()
      ensures count == 0
    {
      count := 0;
    }

    ghost function Issued(): set<string>
      reads this
    {
      set k: nat | k < count :: UuidText(k)
    }

    method New() returns (id: string)
      modifies this
      ensures id == UuidText(old(count)) && count == old(count) + 1
      ensures id !in old(Issued())
    {
      id := UuidText(count);
      forall k: nat | k < count ensures UuidText(k) != id {
        ValueOfPad(k, 1);
        ValueOfPad(count, 1);
      }
      count := count + 1;
    }
  }

  class Event {
    var props: map<EventKey, PropValue>

    /** The event AddEvent creates: it carries only its UID. */
    constructor (uid: string)
      ensures props == map[Uid := Text(uid)]
    {
      props := map[Uid := Text(uid)];
    }

    method SetProperty(key: EventKey, v: PropValue)
      modifies this
      ensures props == old(props)[key := v]
    {
      props := props[key := v];
    }
  }

  /** The abstract value of a calendar: its properties and its events' properties, in order. */
  datatype CalendarDoc = CalendarDoc(props: map<CalendarKey, PropValue>, events: seq<map<EventKey, PropValue>>)

  function PropsOf(es: seq<Event>): (r: seq<map<EventKey, PropValue>>)
    reads set e | e in es
    ensures |r| == |es| && forall k :: 0 <= k < |es| ==> r[k] == es[k].props
  {
    seq(|es|, k reads set e | e in es requires 0 <= k < |es| => es[k].props)
  }

  class Calendar {
    var props: map<CalendarKey, PropValue>
    var events: seq<Event>

    /** ics.NewCalendar(); the library's own default properties are not modelled. */
    constructor ()
      ensures props == map[] && events == []
    {
      props := map[];
      events := [];
    }

    method SetProperty(key: CalendarKey, v: PropValue)
      modifies this
      ensures props == old(props)[key := v] && events == old(events)
    {
      props := props[key := v];
    }

    /** cal.AddEvent(id): appends a new event with this UID and returns it for the setters. */
    method AddEvent(uid: string) returns (e: Event)
      modifies this
      ensures fresh(e) && e.props == map[Uid := Text(uid)]
      ensures events == old(events) + [e] && props == old(props)
    {
      e := new Event(uid);
      events := events + [e];
    }

    function Doc(): CalendarDoc
      reads this, set e | e in events
    {
      CalendarDoc(props, PropsOf(events))
    }
  }

  /** The calendar-level properties: product id, name twice, timezone twice, all from cfg. */
  function MetaProps(cfg: Config): map<CalendarKey, PropValue>
  {
    map[ProductId := Text(cfg.productId), Name := Text(cfg.name), XWRCalName := Text(cfg.name),
        TimezoneId := Text(cfg.timezone), XWRTimezone := Text(cfg.timezone)]
  }

  /** The properties of the event for delivery date d. */
  function EventDoc(uid: string, d: Date, summary: string): map<EventKey, PropValue>
    requires ValidDate(d)
  {
    map[Uid := Text(uid), Sequence := Text("0"), DtStamp := Stamp(d),
        Named(DtStartDate) := Text(FormatYmd(d)), Named(CdoAllDay) := Text("TRUE"),
        Named(MsnAllDay) := Text("TRUE"), Summary := Text(summary)]
  }

  /** The calendar buildCalendar builds from schedule sch when its events get ids uids. */
  function BuiltDoc(cfg: Config, sch: seq<Date>, uids: seq<string>): CalendarDoc
    requires AllValid(sch) && |uids| == |sch|
  {
    CalendarDoc(MetaProps(cfg),
      seq(|sch|, k requires 0 <= k < |sch| => EventDoc(uids[k], sch[k], cfg.summary)))
  }

  /** One event per date, in schedule order; each has sequence 0, the configured summary
      verbatim, its date as DTSTAMP, and both all-day flags "TRUE". */
  lemma BuiltDocEvents(cfg: Config, sch: seq<Date>, uids: seq<string>)
    requires AllValid(sch) && |uids| == |sch|
    ensures var doc := BuiltDoc(cfg, sch, uids);
      && |doc.events| == |sch|
      && forall k :: 0 <= k < |sch| ==>
           && doc.events[k][Uid] == Text(uids[k])
           && doc.events[k][Sequence] == Text("0")
           && doc.events[k][Summary] == Text(cfg.summary)
           && doc.events[k][DtStamp] == Stamp(sch[k])
           && doc.events[k][Named(CdoAllDay)] == Text("TRUE")
           && doc.events[k][Named(MsnAllDay)] == Text("TRUE")
  {
  }

  /** DTSTART;VALUE=DATE is the date as eight YYYYMMDD digits, and it reads back as the date. */
  lemma {:induction false} BuiltDocDtStart(cfg: Config, sch: seq<Date>, uids: seq<string>, k: int)
    requires AllValid(sch) && |uids| == |sch| && 0 <= k < |sch| && 0 <= sch[k].year <= 9999
    ensures var v := BuiltDoc(cfg, sch, uids).events[k][Named(DtStartDate)];
            v.Text? && |v.text| == 8 && AllDigits(v.text) && ParseYmd(v.text) == sch[k]
  {
    FormatYmdRoundTrip(sch[k]);
  }

  /** With ids from the uuid source, the events of one build have pairwise distinct UIDs. */
  lemma {:induction false} BuiltDocDistinctIds(cfg: Config, sch: seq<Date>, start: nat)
    requires AllValid(sch)
    ensures var doc := BuiltDoc(cfg, sch, IdRange(start, |sch|));
            forall a, b :: 0 <= a < b < |sch| ==> doc.events[a][Uid] != doc.events[b][Uid]
  {
    IdRangeFresh(start, |sch|);
  }

  /** The metadata depends on the configuration only; an empty schedule gives no events. */
  lemma BuiltDocMetadata(cfg: Config, s1: seq<Date>, u1: seq<string>, s2: seq<Date>, u2: seq<string>)
    requires AllValid(s1) && |u1| == |s1| && AllValid(s2) && |u2| == |s2|
    ensures BuiltDoc(cfg, s1, u1).props == BuiltDoc(cfg, s2, u2).props == MetaProps(cfg)
    ensures BuiltDoc(cfg, [], []).events == []
  {
  }

  /** The setter calls buildCalendar makes on each new event. */
  method SetEventProperties(e: Event, uid: string, d: Date, summary: string)
    requires ValidDate(d) && e.props == map[Uid := Text(uid)]
    modifies e
    ensures e.props == EventDoc(uid, d, summary)
  {
    e.SetProperty(Sequence, Text("0"));
    e.SetProperty(DtStamp, Stamp(d));
    e.SetProperty(Named(DtStartDate), Text(FormatYmd(d)));
    e.SetProperty(Named(CdoAllDay), Text("TRUE"));
    e.SetProperty(Named(MsnAllDay), Text("TRUE"));
    e.SetProperty(Summary, Text(summary));
  }

  /** The CalendarBuilder object: the configuration and the uuid generator it draws from. */
  class CalendarBuilder {
    const cfg: Config
    const ids: UuidSource

    constructor (cfg: Config, ids: UuidSource)
      ensures this.cfg == cfg && this.ids == ids
    {
      this.cfg := cfg;
      this.ids := ids;
    }

    /** buildCalendar: a new calendar with the metadata set, then one event per date. */
    method BuildCalendar(sch: seq<Date>) returns (cal: Calendar)
      requires AllValid(sch)
      modifies ids
      ensures fresh(cal) && forall k :: 0 <= k < |cal.events| ==> fresh(cal.events[k])
      ensures ids.count == old(ids.count) + |sch|
      ensures cal.Doc() == BuiltDoc(cfg, sch, IdRange(old(ids.count), |sch|))
    {
      ghost var start := ids.count;
      cal := new Calendar();
      cal.SetProperty(ProductId, Text(cfg.productId));
      cal.SetProperty(Name, Text(cfg.name));
      cal.SetProperty(XWRCalName, Text(cfg.name));
      cal.SetProperty(TimezoneId, Text(cfg.timezone));
      cal.SetProperty(XWRTimezone, Text(cfg.timezone));
      var i := 0;
      while i < |sch|
        invariant 0 <= i <= |sch| && ids.count == start + i
        invariant cal.props == MetaProps(cfg) && |cal.events| == i
        invariant forall k :: 0 <= k < i ==> fresh(cal.events[k])
        invariant forall k :: 0 <= k < i ==> cal.events[k].props == EventDoc(UuidText(start + k), sch[k], cfg.summary)
      {
        var id := ids.New();
        var e := cal.AddEvent(id);
        SetEventProperties(e, id, sch[i], cfg.summary);
        i := i + 1;
      }
      assert PropsOf(cal.events) == BuiltDoc(cfg, sch, IdRange(start, |sch|)).events;
    }
  }
}
