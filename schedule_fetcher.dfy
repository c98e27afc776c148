/** The schedule fetcher: endpoint discovery from the carrier's page, the schedule request,
    and parsing of the Norwegian "<day>. <month>" delivery dates. */
module Fetch {
  import opened Common
  import opened Decimal
  import opened Dates

  // ---------------------------------------------------------------------------------------
  // Delivery-date parsing

  /** The month-name table: twelve lower-case Norwegian names, matched exactly. */
  const Months: map<string, int> := map[
    "januar" := 1, "februar" := 2, "mars" := 3, "april" := 4, "mai" := 5, "juni" := 6,
    "juli" := 7, "august" := 8, "september" := 9, "oktober" := 10, "november" := 11,
    "desember" := 12]

  /** The largest value strconv.Atoi accepts on a 64-bit platform. */
  const MaxInt: int := 0x7fff_ffff_ffff_ffff

  /** The RE2 class \s: tab, newline, form feed, carriage return and space. */
  predicate IsSpace(c: char) { c == '\t' || c == '\n' || c == '\U{000C}' || c == '\r' || c == ' ' }

  /** The RE2 class \w: ASCII letters, digits and underscore. */
  predicate IsWord(c: char) { 'a' <= c <= 'z' || 'A' <= c <= 'Z' || IsDigit(c) || c == '_' }

  /** Every character of s[lo..hi] is in class p. */
  predicate Span(s: string, lo: int, hi: int, p: char -> bool)
    requires 0 <= lo <= hi <= |s|
  {
    forall x :: lo <= x < hi ==> p(s[x])
  }

  /** Groups of a match of `(\d+)\.\s+(\w+)$`: the day digits are s[dayStart..dot], the dot is
      s[dot], the whitespace is s[dot+1..wordStart], and the month word is s[wordStart..]. */
  datatype Match = Match(dayStart: nat, dot: nat, wordStart: nat)

  /** A match of the pattern in s with these groups. */
  predicate MatchAt(s: string, i: int, j: int, k: int)
  {
    0 <= i < j && j + 1 < k < |s|
    && Span(s, i, j, IsDigit) && s[j] == '.' && Span(s, j + 1, k, IsSpace) && Span(s, k, |s|, IsWord)
  }

  /** Start of the longest run of class-p characters that ends at hi. */
  function RunStart(s: string, hi: nat, p: char -> bool): (lo: nat)
    requires hi <= |s|
    ensures lo <= hi && Span(s, lo, hi, p)
    ensures lo == 0 || !p(s[lo - 1])
    decreases hi
  {
    if hi == 0 || !p(s[hi - 1]) then hi else RunStart(s, hi - 1, p)
  }

  lemma {:induction false} RunStartMinimal(s: string, lo: nat, hi: nat, p: char -> bool)
    requires lo <= hi <= |s| && Span(s, lo, hi, p)
    ensures RunStart(s, hi, p) <= lo
    decreases hi
  {
    if hi > lo {
      RunStartMinimal(s, lo, hi - 1, p);
    }
  }

  /** The match FindStringSubmatch returns, found from the right: the pattern is anchored only
      at the end, so the word, the whitespace and the dot are fixed by the string's tail, and
      the leftmost match takes the longest digit run before the dot. */
  function MatchDate(s: string): Option<Match>
  {
    var k := RunStart(s, |s|, IsWord);
    if k == |s| then None
    else
      var w := RunStart(s, k, IsSpace);
      if w == k || w == 0 || s[w - 1] != '.' then None
      else
        var i := RunStart(s, w - 1, IsDigit);
        if i == w - 1 then None else Some(Match(i, w - 1, k))
  }

  /** Soundness: a returned match is a match, and it is the leftmost one. */
  lemma MatchDateSound(s: string)
    requires MatchDate(s).Some?
    ensures var m := MatchDate(s).value;
            MatchAt(s, m.dayStart, m.dot, m.wordStart) && (m.dayStart == 0 || !IsDigit(s[m.dayStart - 1]))
  {
  }

  /** Completeness: whenever the pattern matches anywhere, MatchDate finds the match with the
      same dot and month word and a digit run that starts no later. */
  lemma {:induction false} MatchDateComplete(s: string, i: int, j: int, k: int)
    requires MatchAt(s, i, j, k)
    ensures MatchDate(s).Some?
    ensures MatchDate(s).value.dot == j && MatchDate(s).value.wordStart == k
    ensures MatchDate(s).value.dayStart <= i
  {
    RunStartMinimal(s, k, |s|, IsWord);
    var k' := RunStart(s, |s|, IsWord);
    assert !IsWord(s[k - 1]);
    assert k' == k;
    RunStartMinimal(s, j + 1, k, IsSpace);
    var w := RunStart(s, k, IsSpace);
    assert !IsSpace(s[j]);
    assert w == j + 1;
    RunStartMinimal(s, i, j, IsDigit);
  }

  /** Everything parseDate does after the pattern matched: month lookup, strconv.Atoi of
      the day, the date in today's year, and the roll into the next year. */
  function ResolveDate(dayText: string, name: string, today: Date): (r: Result<Date>)
    requires AllDigits(dayText) && ValidDate(today)
    ensures r.Ok? ==> ValidDate(r.value) && !Before(r.value, today)
  {
    if name !in Months then Err(BadMonth(name))
    else
      var day := Value(dayText);
      if day > MaxInt then Err(DayOutOfRange(dayText))
      else
        var parsed := Normalize(today.year, Months[name], day);
        if Before(parsed, today) then
          NormalizeNotBeforeEve(today.year, Months[name], day);
          RolledNotBefore(parsed, today);
          Ok(AddYear(parsed))
        else Ok(parsed)
  }

  /** The year roll only happens to a date that normalisation put no earlier than
      31 December of the previous year, and the rolled date is never before today. */
  lemma RolledNotBefore(parsed: Date, today: Date)
    requires ValidDate(today) && ValidDate(parsed)
    requires !Before(parsed, Date(today.year - 1, 12, 31)) && Before(parsed, today)
    ensures !Before(AddYear(parsed), today)
  {
    AddYearOf(parsed);
  }

  /** parseDate(date) with the clock reading `today` (a valid local date). */
  function ParseDate(s: string, today: Date): (r: Result<Date>)
    requires ValidDate(today)
    ensures r.Ok? ==> ValidDate(r.value) && !Before(r.value, today)
  {
    match MatchDate(s)
    case None => Err(BadDate(s))
    case Some(m) =>
      MatchDateSound(s);
      ResolveDate(s[m.dayStart..m.dot], s[m.wordStart..], today)
  }

  /** parseDate fails with "could not parse date" exactly when the pattern matches nowhere. */
  lemma {:induction false} ParseDateBadFormat(s: string, today: Date)
    requires ValidDate(today)
    ensures ParseDate(s, today) == Err(BadDate(s)) <==> forall i, j, k :: !MatchAt(s, i, j, k)
  {
    if MatchDate(s).Some? {
      MatchDateSound(s);
      var m := MatchDate(s).value;
      assert MatchAt(s, m.dayStart, m.dot, m.wordStart);
    } else {
      forall i, j, k ensures !MatchAt(s, i, j, k) {
        if MatchAt(s, i, j, k) {
          MatchDateComplete(s, i, j, k);
        }
      }
    }
  }

  /** A string that ends in "<digits>.<whitespace><word>", after any prefix that does not end
      in a digit (a weekday such as "torsdag "), is resolved from those digits and that word. */
  lemma {:induction false} ParseDateOfParts(prefix: string, digits: string, spaces: string, word: string, today: Date)
    requires ValidDate(today)
    requires prefix == [] || !IsDigit(prefix[|prefix| - 1])
    requires |digits| > 0 && AllDigits(digits)
    requires |spaces| > 0 && forall x :: 0 <= x < |spaces| ==> IsSpace(spaces[x])
    requires |word| > 0 && forall x :: 0 <= x < |word| ==> IsWord(word[x])
    ensures ParseDate(prefix + digits + "." + spaces + word, today) == ResolveDate(digits, word, today)
  {
    var s := prefix + digits + "." + spaces + word;
    var i := |prefix|;
    var j := i + |digits|;
    var k := j + 1 + |spaces|;
    assert s[i..j] == digits && s[j] == '.' && s[j + 1..k] == spaces && s[k..] == word;
    assert MatchAt(s, i, j, k);
    MatchDateComplete(s, i, j, k);
    MatchDateSound(s);
    assert i > 0 ==> s[i - 1] == prefix[i - 1];
  }

  /** Only the twelve table names resolve, to twelve distinct months 1..12; any other word,
      a capitalised month name included, fails with "could not parse month". */
  lemma {:induction false} MonthTable(dayText: string, name: string, today: Date)
    requires AllDigits(dayText) && ValidDate(today)
    ensures name in Months ==> 1 <= Months[name] <= 12
    ensures forall a, b :: a in Months && b in Months && a != b ==> Months[a] != Months[b]
    ensures name !in Months <==> ResolveDate(dayText, name, today) == Err(BadMonth(name))
    ensures "September" !in Months && "september" in Months
  {
  }

  /** For a day that exists in the month, the date lands in today's year when (month, day) is
      today or later (Before is strict), and otherwise one year on. */
  lemma {:induction false} ResolveDateYear(dayText: string, name: string, today: Date)
    requires AllDigits(dayText) && ValidDate(today)
    requires name in Months && 1 <= Months[name] <= 12
    requires 1 <= Value(dayText) <= DaysIn(today.year, Months[name])
    ensures var d := Date(today.year, Months[name], Value(dayText));
            ResolveDate(dayText, name, today) == Ok(if Before(d, today) then AddYear(d) else d)
  {
    NormalizeValid(Date(today.year, Months[name], Value(dayText)));
  }

  /** "4. september" resolves to 4 September of today's year unless that day is already
      past, and to 4 September of the next year otherwise. */
  lemma {:induction false} ParseFourSeptember(s: string, today: Date)
    requires s == "4. september" && ValidDate(today)
    ensures var d := Date(today.year, 9, 4);
            ParseDate(s, today) == Ok(if Before(d, today) then Date(today.year + 1, 9, 4) else d)
  {
    FourSeptemberParts(s, today);
    FourSeptemberResolves(today);
  }

  lemma FourSeptemberParts(s: string, today: Date)
    requires s == "4. september" && ValidDate(today)
    ensures ParseDate(s, today) == ResolveDate("4", "september", today)
  {
    assert s == [] + "4" + "." + " " + "september";
    ParseDateOfParts([], "4", " ", "september", today);
  }

  lemma FourSeptemberResolves(today: Date)
    requires ValidDate(today)
    ensures var d := Date(today.year, 9, 4);
            ResolveDate("4", "september", today) == Ok(if Before(d, today) then Date(today.year + 1, 9, 4) else d)
  {
    assert Value("4") == 4 by { assert "4"[..0] == []; }
    assert Months["september"] == 9;
    ResolveDateYear("4", "september", today);
    AddYearOf(Date(today.year, 9, 4));
  }

  /** The two sides of the roll, on concrete days: before and after 4 September 2025. */
  lemma FourSeptember(s: string)
    requires s == "4. september"
    ensures ParseDate(s, Date(2025, 1, 10)) == Ok(Date(2025, 9, 4))
    ensures ParseDate(s, Date(2025, 10, 1)) == Ok(Date(2026, 9, 4))
  {
    ParseFourSeptember(s, Date(2025, 1, 10));
    ParseFourSeptember(s, Date(2025, 10, 1));
  }

  /** A leap-day delivery announced while today lies in a common year resolves to 1 March:
      time.Date normalises 29 February of today's year before the roll. */
  lemma LeapDayInCommonYear()
    ensures ParseDate("29. februar", Date(2027, 12, 20)) == Ok(Date(2028, 3, 1))
  {
    assert "29. februar" == [] + "29" + "." + " " + "februar";
    ParseDateOfParts([], "29", " ", "februar", Date(2027, 12, 20));
    LeapDayResolves();
  }

  lemma LeapDayResolves()
    ensures ResolveDate("29", "februar", Date(2027, 12, 20)) == Ok(Date(2028, 3, 1))
  {
    assert Value("29") == 29 by {
      assert "29"[..1] == "2";
      assert Value("2") == 2 by { assert "2"[..0] == []; }
    }
    assert Months["februar"] == 2;
    LeapDayNormalizes();
  }

  lemma LeapDayNormalizes()
    ensures Normalize(2027, 2, 29) == Date(2027, 3, 1)
    ensures AddYear(Date(2027, 3, 1)) == Date(2028, 3, 1)
  {
    assert !IsLeap(2027) && IsLeap(2028);
    assert DaysIn(2027, 2) == 28;
    assert Normalize(2027, 2, 29) == Normalize(2027, 3, 1);
    NormalizeValid(Date(2027, 3, 1));
    NormalizeValid(Date(2028, 3, 1));
  }

  /** parseDate with the clock reading `today`, as the per-string step of parseRawSchedule. */
  function DateParser(today: Date): string -> Result<Date>
    requires ValidDate(today)
  {
    s => ParseDate(s, today)
  }

  /** parseRawSchedule's all-or-nothing shape: `parse` applied to each string in order,
      yielding every result or the first failure. A successful result has one date per
      string, each the parse of the string at its position. */
  function ParseAll(raw: seq<string>, parse: string -> Result<Date>): (r: Result<seq<Date>>)
    ensures r.Ok? ==> |r.value| == |raw|
    ensures r.Ok? ==> forall i :: 0 <= i < |raw| ==> parse(raw[i]) == Ok(r.value[i])
    decreases |raw|
  {
    if raw == [] then Ok([])
    else match parse(raw[0])
      case Err(e) => Err(e)
      case Ok(d) =>
        match ParseAll(raw[1..], parse)
        case Err(e) => Err(e)
        case Ok(rest) =>
          assert forall i :: 1 <= i < |raw| ==> raw[i] == raw[1..][i - 1];
          Ok([d] + rest)
  }

  /** When every string parses, the schedule holds each parsed date at its own position. */
  lemma {:induction false} ParseAllOk(raw: seq<string>, parse: string -> Result<Date>, sch: seq<Date>)
    requires |sch| == |raw|
    requires forall i :: 0 <= i < |raw| ==> parse(raw[i]) == Ok(sch[i])
    ensures ParseAll(raw, parse) == Ok(sch)
    decreases |raw|
  {
    if raw != [] {
      assert forall i :: 0 <= i < |raw| - 1 ==> raw[1..][i] == raw[i + 1];
      ParseAllOk(raw[1..], parse, sch[1..]);
      assert sch == [sch[0]] + sch[1..];
    }
  }

  /** All or nothing: the first string that does not parse makes the whole schedule fail with
      that string's error. */
  lemma {:induction false} ParseAllFirstError(raw: seq<string>, parse: string -> Result<Date>, k: int)
    requires 0 <= k < |raw|
    requires parse(raw[k]).Err?
    requires forall i :: 0 <= i < k ==> parse(raw[i]).Ok?
    ensures ParseAll(raw, parse) == Err(parse(raw[k]).error)
    decreases k
  {
    if k > 0 {
      assert raw[1..][k - 1] == raw[k];
      forall i | 0 <= i < k - 1 ensures parse(raw[1..][i]).Ok? {
        assert raw[1..][i] == raw[i + 1];
      }
      ParseAllFirstError(raw[1..], parse, k - 1);
    }
  }

  /** The schedule parses exactly when every one of its strings does. */
  lemma {:induction false} ParseAllOkIff(raw: seq<string>, parse: string -> Result<Date>)
    ensures ParseAll(raw, parse).Ok? <==> forall i :: 0 <= i < |raw| ==> parse(raw[i]).Ok?
    ensures raw == [] ==> ParseAll(raw, parse) == Ok([])
  {
    if forall i :: 0 <= i < |raw| ==> parse(raw[i]).Ok? {
      ParseAllOk(raw, parse, seq(|raw|, i requires 0 <= i < |raw| => parse(raw[i]).value));
    }
  }

  /** Every date of a successfully parsed schedule is a valid date no earlier than today. */
  lemma ParsedScheduleValid(raw: seq<string>, today: Date)
    requires ValidDate(today) && ParseAll(raw, DateParser(today)).Ok?
    ensures AllValid(ParseAll(raw, DateParser(today)).value)
    ensures forall d :: d in ParseAll(raw, DateParser(today)).value ==> !Before(d, today)
  {
    var sch := ParseAll(raw, DateParser(today)).value;
    forall i | 0 <= i < |sch| ensures ValidDate(sch[i]) && !Before(sch[i], today) {
      assert ParseDate(raw[i], today) == Ok(sch[i]);
    }
  }

  /** parseRawSchedule: parses each raw date in turn with `parse` (parseDate at the clock's
      reading, DateParser(today), at its one call site), returning on the first error. */
  method ParseRawSchedule(raw: seq<string>, parse: string -> Result<Date>) returns (r: Result<seq<Date>>)
    ensures r == ParseAll(raw, parse)
  {
    var sch: seq<Date> := [];
    var i := 0;
    while i < |raw|
      invariant 0 <= i <= |raw| && |sch| == i
      invariant forall k :: 0 <= k < i ==> parse(raw[k]) == Ok(sch[k])
    {
      var t := parse(raw[i]);
      if t.Err? {
        ParseAllFirstError(raw, parse, i);
        return Err(t.error);
      }
      sch := sch + [t.value];
      i := i + 1;
    }
    ParseAllOk(raw, parse, sch);
    return Ok(sch);
  }

  // ---------------------------------------------------------------------------------------
  // Endpoint discovery

  /** The kinds of token the HTML tokenizer yields before its terminating error token. */
  datatype TokenType =
    | TextToken | StartTagToken | EndTagToken | SelfClosingTagToken | CommentToken | DoctypeToken

  datatype Attribute = Attribute(key: string, val: string)

  datatype Token = Token(kind: TokenType, data: string, attrs: seq<Attribute>)

  type Url = string

  /** A start tag with the configured tag name and the configured id. */
  predicate IsApiElement(t: Token, cfg: Config)
  {
    t.kind == StartTagToken && t.data == cfg.apiElement && Attribute("id", cfg.apiElementId) in t.attrs
  }

  /** The value of the first attribute with this key. */
  function FirstValue(attrs: seq<Attribute>, key: string): (r: Option<string>)
    ensures r.None? <==> forall i :: 0 <= i < |attrs| ==> attrs[i].key != key
    decreases |attrs|
  {
    if attrs == [] then None
    else if attrs[0].key == key then Some(attrs[0].val)
    else
      assert forall i :: 1 <= i < |attrs| ==> attrs[i] == attrs[1..][i - 1];
      FirstValue(attrs[1..], key)
  }

  /** A token the scan stops at: the configured element carrying the path attribute. */
  predicate IsCandidate(t: Token, cfg: Config)
  {
    IsApiElement(t, cfg) && FirstValue(t.attrs, cfg.apiPathAttr).Some?
  }

  /** url.Parse of the attribute value and its resolution against the page URL, given as the
      function `resolve` (None when url.Parse fails). */
  function ResolvePath(resolve: string -> Option<Url>, path: string): Result<Url>
  {
    match resolve(path)
    case None => Err(BadUrl(path))
    case Some(u) => Ok(u)
  }

  /** The outcome of the token scan in fetchAPIURL. */
  function ScanTokens(tokens: seq<Token>, cfg: Config, resolve: string -> Option<Url>): Result<Url>
    decreases |tokens|
  {
    if tokens == [] then Err(MarkerNotFound)
    else if IsCandidate(tokens[0], cfg) then
      ResolvePath(resolve, FirstValue(tokens[0].attrs, cfg.apiPathAttr).value)
    else ScanTokens(tokens[1..], cfg, resolve)
  }

  /** The scan resolves the path attribute of the first candidate token. */
  lemma {:induction false} ScanFindsFirst(tokens: seq<Token>, cfg: Config, resolve: string -> Option<Url>, n: int)
    requires 0 <= n < |tokens| && IsCandidate(tokens[n], cfg)
    requires forall i :: 0 <= i < n ==> !IsCandidate(tokens[i], cfg)
    ensures ScanTokens(tokens, cfg, resolve) == ResolvePath(resolve, FirstValue(tokens[n].attrs, cfg.apiPathAttr).value)
    decreases n
  {
    if n > 0 {
      assert tokens[1..][n - 1] == tokens[n];
      forall i | 0 <= i < n - 1 ensures !IsCandidate(tokens[1..][i], cfg) {
        assert tokens[1..][i] == tokens[i + 1];
      }
      ScanFindsFirst(tokens[1..], cfg, resolve, n - 1);
    }
  }

  /** With no candidate token the scan ends with io.EOF. */
  lemma {:induction false} ScanNotFound(tokens: seq<Token>, cfg: Config, resolve: string -> Option<Url>)
    requires forall i :: 0 <= i < |tokens| ==> !IsCandidate(tokens[i], cfg)
    ensures ScanTokens(tokens, cfg, resolve) == Err(MarkerNotFound)
    decreases |tokens|
  {
    if tokens != [] {
      forall i | 0 <= i < |tokens| - 1 ensures !IsCandidate(tokens[1..][i], cfg) {
        assert tokens[1..][i] == tokens[i + 1];
      }
      ScanNotFound(tokens[1..], cfg, resolve);
    }
  }

  /** A token that is not a candidate can be removed without changing the outcome: end tags,
      text, self-closing tags, other elements, and the right element without the path attribute. */
  lemma {:induction false} ScanSkips(a: seq<Token>, t: Token, b: seq<Token>, cfg: Config, resolve: string -> Option<Url>)
    requires !IsCandidate(t, cfg)
    ensures ScanTokens(a + [t] + b, cfg, resolve) == ScanTokens(a + b, cfg, resolve)
    decreases |a|
  {
    if a == [] {
      assert (a + [t] + b)[1..] == b && a + b == b;
    } else {
      assert (a + [t] + b)[0] == a[0] && (a + [t] + b)[1..] == a[1..] + [t] + b;
      assert (a + b)[0] == a[0] && (a + b)[1..] == a[1..] + b;
      ScanSkips(a[1..], t, b, cfg, resolve);
    }
  }

  /** The token loop of fetchAPIURL: skip tokens that are not the configured start tag, look
      for the id among its attributes, then for the path attribute, and return on the first. */
  method ScanForApiUrl(tokens: seq<Token>, cfg: Config, resolve: string -> Option<Url>) returns (r: Result<Url>)
    ensures r == ScanTokens(tokens, cfg, resolve)
  {
    var i := 0;
    while i < |tokens|
      invariant 0 <= i <= |tokens|
      invariant ScanTokens(tokens[i..], cfg, resolve) == ScanTokens(tokens, cfg, resolve)
    {
      var t := tokens[i];
      assert tokens[i..][1..] == tokens[i + 1..];
      i := i + 1;
      if t.kind != StartTagToken || t.data != cfg.apiElement {
        continue;
      }
      var foundElement := false;
      var j := 0;
      while j < |t.attrs|
        invariant 0 <= j <= |t.attrs|
        invariant !foundElement ==> forall x :: 0 <= x < j ==> t.attrs[x] != Attribute("id", cfg.apiElementId)
        invariant foundElement ==> Attribute("id", cfg.apiElementId) in t.attrs
      {
        var a := t.attrs[j];
        if a.key == "id" && a.val == cfg.apiElementId {
          foundElement := true;
          break;
        }
        j := j + 1;
      }
      if !foundElement {
        continue;
      }
      j := 0;
      while j < |t.attrs|
        invariant 0 <= j <= |t.attrs|
        invariant forall x :: 0 <= x < j ==> t.attrs[x].key != cfg.apiPathAttr
      {
        var a := t.attrs[j];
        if a.key == cfg.apiPathAttr {
          assert FirstValue(t.attrs, cfg.apiPathAttr) == Some(a.val) by {
            FirstValueAt(t.attrs, cfg.apiPathAttr, j);
          }
          match resolve(a.val)
          case None => return Err(BadUrl(a.val));
          case Some(u) => return Ok(u);
        }
        j := j + 1;
      }
    }
    return Err(MarkerNotFound);
  }

  lemma {:induction false} FirstValueAt(attrs: seq<Attribute>, key: string, j: int)
    requires 0 <= j < |attrs| && attrs[j].key == key
    requires forall x :: 0 <= x < j ==> attrs[x].key != key
    ensures FirstValue(attrs, key) == Some(attrs[j].val)
    decreases j
  {
    if j > 0 {
      assert attrs[1..][j - 1] == attrs[j];
      forall x | 0 <= x < j - 1 ensures attrs[1..][x].key != key {
        assert attrs[1..][x] == attrs[x + 1];
      }
      FirstValueAt(attrs[1..], key, j - 1);
    }
  }

  // ---------------------------------------------------------------------------------------
  // The network, the schedule request, and GetSchedule

  /** What an HTTP exchange yields: a transport error, or a status and a body. */
  datatype Fetched<T> = TransportError | Response(status: int, body: T)

  /** The schedule request: the discovered URL, whose query string Go replaces (RawQuery is
      assigned, not extended) by the one parameter `param=value`. */
  datatype ApiRequest = ApiRequest(url: Url, param: string, value: string)

  datatype Call = PageGet | ApiGet(request: ApiRequest)

  /** The HTTP client, as an oracle. The page GET yields the token sequence of its body; a
      failed read of that body ends the sequence, as the tokenizer's ErrorToken does. An API
      request yields the decoded `nextDeliveryDays` list, or None when io.ReadAll or
      json.Unmarshal fails; a JSON object without the key, or `null`, decodes to the empty
      list. Every call is recorded. */
  class Network {
    const page: Fetched<seq<Token>>
    const api: ApiRequest -> Fetched<Option<seq<string>>>
    var log: seq<Call>

    constructor (page: Fetched<seq<Token>>, api: ApiRequest -> Fetched<Option<seq<string>>>)
      ensures this.page == page && this.api == api && log == []
    {
      this.page := page;
      this.api := api;
      log := [];
    }

    method GetPage() returns (r: Fetched<seq<Token>>)
      modifies this
      ensures r == page && log == old(log) + [PageGet]
    {
      r := page;
      log := log + [PageGet];
    }

    method Do(req: ApiRequest) returns (r: Fetched<Option<seq<string>>>)
      modifies this
      ensures r == api(req) && log == old(log) + [ApiGet(req)]
    {
      r := api(req);
      log := log + [ApiGet(req)];
    }
  }

  /** fetchAPIURL as a function of the page response. */
  function Discover(page: Fetched<seq<Token>>, cfg: Config, resolve: string -> Option<Url>): Result<Url>
  {
    match page
    case TransportError => Err(NetworkFailure)
    case Response(status, tokens) =>
      if status != 200 then Err(StatusCode(status)) else ScanTokens(tokens, cfg, resolve)
  }

  /** The request fetchSchedule sends: fmt.Sprint(postCode) as the configured parameter. */
  function RequestFor(cfg: Config, url: Url, postCode: nat): ApiRequest
  {
    ApiRequest(url, cfg.apiPostCodeArg, Pad(postCode, 1))
  }

  /** fetchSchedule as a function of the API response. */
  function Decode(resp: Fetched<Option<seq<string>>>): Result<seq<string>>
  {
    match resp
    case TransportError => Err(NetworkFailure)
    case Response(status, body) =>
      if status != 200 then Err(StatusCode(status))
      else if body.None? then Err(DecodeFailed)
      else Ok(body.value)
  }

  /** GetSchedule as a function of the two responses: discover, fetch, parse, stopping at
      the first error. */
  function ScheduleOf(page: Fetched<seq<Token>>, api: ApiRequest -> Fetched<Option<seq<string>>>,
                      cfg: Config, resolve: string -> Option<Url>, postCode: nat, today: Date): (r: Result<seq<Date>>)
    requires ValidDate(today)
    ensures r.Ok? ==> AllValid(r.value)
  {
    match Discover(page, cfg, resolve)
    case Err(e) => Err(e)
    case Ok(url) =>
      match Decode(api(RequestFor(cfg, url, postCode)))
      case Err(e) => Err(e)
      case Ok(raw) =>
        var r := ParseAll(raw, DateParser(today));
        if r.Ok? then ParsedScheduleValid(raw, today); r else r
  }

  /** The calls GetSchedule makes: the page, then the API only if discovery succeeded. */
  function CallsOf(page: Fetched<seq<Token>>, cfg: Config, resolve: string -> Option<Url>, postCode: nat): seq<Call>
  {
    match Discover(page, cfg, resolve)
    case Err(_) => [PageGet]
    case Ok(url) => [PageGet, ApiGet(RequestFor(cfg, url, postCode))]
  }

  /** Any status other than exactly 200 fails the step, for the page and for the API alike. */
  lemma StatusMustBe200(status: int, tokens: seq<Token>, body: Option<seq<string>>, cfg: Config, resolve: string -> Option<Url>)
    requires status != 200
    ensures Discover(Response(status, tokens), cfg, resolve) == Err(StatusCode(status))
    ensures Decode(Response(status, body)) == Err(StatusCode(status))
  {
  }

  /** GetSchedule succeeds exactly when every step does: the page answers 200, the scan finds
      the endpoint, the API answers 200 with a decodable body, and every date in it parses. */
  lemma {:induction false} ScheduleOkIff(page: Fetched<seq<Token>>, api: ApiRequest -> Fetched<Option<seq<string>>>,
                                         cfg: Config, resolve: string -> Option<Url>, postCode: nat, today: Date)
    requires ValidDate(today)
    ensures ScheduleOf(page, api, cfg, resolve, postCode, today).Ok? <==>
      && page.Response? && page.status == 200
      && ScanTokens(page.body, cfg, resolve).Ok?
      && var resp := api(RequestFor(cfg, ScanTokens(page.body, cfg, resolve).value, postCode));
         && resp.Response? && resp.status == 200 && resp.body.Some?
         && forall i :: 0 <= i < |resp.body.value| ==> DateParser(today)(resp.body.value[i]).Ok?
  {
    if page.Response? && page.status == 200 && ScanTokens(page.body, cfg, resolve).Ok? {
      var resp := api(RequestFor(cfg, ScanTokens(page.body, cfg, resolve).value, postCode));
      if resp.Response? && resp.status == 200 && resp.body.Some? {
        ParseAllOkIff(resp.body.value, DateParser(today));
      }
    }
  }

  /** The postcode reaches the API as a plain decimal numeral, so leading zeros are lost. */
  lemma QueryDropsLeadingZeros(cfg: Config, url: Url)
    ensures RequestFor(cfg, url, 150).value == "150"
  {
    assert Pad(150, 1) == Pad(15, 0) + "0";
    assert Pad(15, 0) == Pad(1, 0) + "5";
  }

  /** The ScheduleFetcher object: configuration, HTTP client and URL resolution. */
  class ScheduleFetcher {
    const cfg: Config
    const net: Network
    const resolve: string -> Option<Url>

    constructor (cfg: Config, net: Network, resolve: string -> Option<Url>)
      ensures this.cfg == cfg && this.net == net && this.resolve == resolve
    {
      this.cfg := cfg;
      this.net := net;
      this.resolve := resolve;
    }

    /** fetchAPIURL: fetch the page, require status 200, scan its tokens. */
    method FetchApiUrl() returns (r: Result<Url>)
      modifies net
      ensures r == Discover(net.page, cfg, resolve)
      ensures net.log == old(net.log) + [PageGet]
    {
      var res := net.GetPage();
      if res.TransportError? {
        return Err(NetworkFailure);
      }
      if res.status != 200 {
        return Err(StatusCode(res.status));
      }
      r := ScanForApiUrl(res.body, cfg, resolve);
    }

    /** fetchSchedule: query the API URL, require status 200, decode the body. */
    method FetchSchedule(apiUrl: Url, postCode: nat) returns (r: Result<seq<string>>)
      modifies net
      ensures r == Decode(net.api(RequestFor(cfg, apiUrl, postCode)))
      ensures net.log == old(net.log) + [ApiGet(RequestFor(cfg, apiUrl, postCode))]
    {
      var req := ApiRequest(apiUrl, cfg.apiPostCodeArg, Pad(postCode, 1));
      var res := net.Do(req);
      if res.TransportError? {
        return Err(NetworkFailure);
      }
      if res.status != 200 {
        return Err(StatusCode(res.status));
      }
      if res.body.None? {
        return Err(DecodeFailed);
      }
      return Ok(res.body.value);
    }

    /** GetSchedule: discover the endpoint, fetch the raw schedule, parse it; the first error
      is returned with no schedule. */
    method GetSchedule(postCode: nat, today: Date) returns (r: Result<seq<Date>>)
      requires ValidDate(today)
      modifies net
      ensures r == ScheduleOf(net.page, net.api, cfg, resolve, postCode, today)
      ensures net.log == old(net.log) + CallsOf(net.page, cfg, resolve, postCode)
    {
      var apiUrl := FetchApiUrl();
      if apiUrl.Err? {
        return Err(apiUrl.error);
      }
      var raw := FetchSchedule(apiUrl.value, postCode);
      if raw.Err? {
        return Err(raw.error);
      }
      r := ParseRawSchedule(raw.value, DateParser(today));
    }
  }
}
