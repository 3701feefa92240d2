/** The pure transforms of the Google integration (app/services/google_service.py):
    classifying Gmail messages by keyword into signals, and mapping Calendar items to
    events. HTTP replies, the ISO-8601 parser and the clock are parameters; a parse that
    raises is a None. */
module Google {
  import opened Wrappers
  import opened Schemas
  import opened Text
  import Lists

  // ---- Gmail ----

  /** `SIGNAL_KEYWORDS`, in its dictionary order: both "apply" and "application" mean an
      application. */
  const Keywords: seq<(string, SignalType)> := [
    ("interview", Interview), ("deadline", Deadline), ("apply", Application), ("application", Application),
    ("offer", Offer), ("rsvp", Rsvp), ("invite", Invite), ("internship", Internship),
    ("hackathon", Hackathon), ("submission", Submission)]

  /** Longest snippet a signal keeps. */
  const SnippetLimit: nat := 200

  /** The position of a signal type among `SignalType`'s members. */
  function TypeRank(t: SignalType): nat {
    match t
    case Interview => 0 case Deadline => 1 case Application => 2 case Offer => 3 case Rsvp => 4
    case Invite => 5 case Internship => 6 case Hackathon => 7 case Submission => 8
  }

  /** The signal types of the keywords found in `text`, one per keyword, in keyword order. */
  function MatchesIn(keywords: seq<(string, SignalType)>, text: string): seq<SignalType>
    decreases |keywords|
  {
    if keywords == [] then []
    else
      var rest := MatchesIn(keywords[..|keywords| - 1], text);
      var (kw, st) := keywords[|keywords| - 1];
      if Contains(text, kw) then rest + [st] else rest
  }

  function Matches(text: string): seq<SignalType> {
    MatchesIn(Keywords, text)
  }

  /** Each found type is the type of a keyword contained in the text, and some type is
      found exactly when some keyword is contained. */
  lemma {:induction false} MatchesMeaning(keywords: seq<(string, SignalType)>, text: string)
    ensures forall t :: t in MatchesIn(keywords, text) ==> exists k :: k in keywords && k.1 == t && Contains(text, k.0)
    ensures MatchesIn(keywords, text) != [] <==> exists k :: k in keywords && Contains(text, k.0)
    decreases |keywords|
  {
    if keywords != [] {
      var front := keywords[..|keywords| - 1];
      MatchesMeaning(front, text);
      assert keywords == front + [keywords[|keywords| - 1]];
      assert forall k :: k in keywords <==> k in front || k == keywords[|keywords| - 1];
    }
  }

  /** Types found in a prefix of the keywords keep the rank of the last keyword of the
      prefix as a bound. */
  lemma {:induction false} MatchesRanked(n: nat, text: string)
    requires n <= |Keywords|
    ensures forall t :: t in MatchesIn(Keywords[..n], text) ==> n > 0 && TypeRank(t) <= TypeRank(Keywords[n - 1].1)
    ensures forall i, j :: 0 <= i < j < |MatchesIn(Keywords[..n], text)| ==>
      TypeRank(MatchesIn(Keywords[..n], text)[i]) <= TypeRank(MatchesIn(Keywords[..n], text)[j])
  {
    if n > 0 {
      MatchesRanked(n - 1, text);
      assert Keywords[..n][..n - 1] == Keywords[..n - 1];
      assert n >= 2 ==> TypeRank(Keywords[n - 2].1) <= TypeRank(Keywords[n - 1].1);
    }
  }

  /** A signal's types follow `SIGNAL_KEYWORDS` order, which is `SignalType`'s order. */
  lemma MatchesOrdered(text: string)
    ensures forall i, j :: 0 <= i < j < |Matches(text)| ==> TypeRank(Matches(text)[i]) <= TypeRank(Matches(text)[j])
  {
    MatchesRanked(|Keywords|, text);
    assert Keywords[..|Keywords|] == Keywords;
  }

  function CountOf(s: seq<SignalType>, t: SignalType): nat {
    multiset(s)[t]
  }

  /** Matching against two runs of keywords is matching against each in turn. */
  lemma {:induction false} MatchesInAppend(a: seq<(string, SignalType)>, b: seq<(string, SignalType)>, text: string)
    ensures MatchesIn(a + b, text) == MatchesIn(a, text) + MatchesIn(b, text)
    decreases |b|
  {
    if b == [] {
      assert a + b == a;
    } else {
      var front := b[..|b| - 1];
      MatchesInAppend(a, front, text);
      assert (a + b)[..|a + b| - 1] == a + front;
      assert (a + b)[|a + b| - 1] == b[|b| - 1];
    }
  }

  /** Keywords of other types add nothing to the count of a type. */
  lemma CountOfOthers(keywords: seq<(string, SignalType)>, text: string, t: SignalType)
    requires forall k :: k in keywords ==> k.1 != t
    ensures CountOf(MatchesIn(keywords, text), t) == 0
  {
    MatchesMeaning(keywords, text);
  }

  /** The keywords around the two that mean an application. */
  const BeforeApply: seq<(string, SignalType)> := [("interview", Interview), ("deadline", Deadline)]
  const AfterApplication: seq<(string, SignalType)> := [
    ("offer", Offer), ("rsvp", Rsvp), ("invite", Invite), ("internship", Internship),
    ("hackathon", Hackathon), ("submission", Submission)]

  lemma MatchesAroundApplication(text: string)
    ensures Matches(text) == MatchesIn(BeforeApply, text) + MatchesIn([("apply", Application)], text)
      + MatchesIn([("application", Application)], text) + MatchesIn(AfterApplication, text)
  {
    var apply, application := [("apply", Application)], [("application", Application)];
    assert Keywords == BeforeApply + apply + application + AfterApplication;
    MatchesInAppend(BeforeApply + apply + application, AfterApplication, text);
    MatchesInAppend(BeforeApply + apply, application, text);
    MatchesInAppend(BeforeApply, apply, text);
  }

  /** "application" is listed for both "apply" and "application", so a text holding both
      words carries it twice. */
  lemma ApplicationTwice(text: string)
    ensures CountOf(Matches(text), Application) ==
      (if Contains(text, "apply") then 1 else 0) + (if Contains(text, "application") then 1 else 0)
  {
    var apply, application := [("apply", Application)], [("application", Application)];
    MatchesAroundApplication(text);
    var ma, mp, mq, mb := MatchesIn(BeforeApply, text), MatchesIn(apply, text), MatchesIn(application, text),
      MatchesIn(AfterApplication, text);
    CountOfOthers(BeforeApply, text, Application);
    CountOfOthers(AfterApplication, text, Application);
    assert apply[..0] == [] && application[..0] == [];
    assert CountOf(mp, Application) == if Contains(text, "apply") then 1 else 0;
    assert CountOf(mq, Application) == if Contains(text, "application") then 1 else 0;
    assert multiset(ma + mp + mq + mb) == multiset(ma) + multiset(mp) + multiset(mq) + multiset(mb);
  }

  /** A header as a message's metadata lists it. */
  datatype Header = Header(name: string, value: string)

  /** One message's metadata reply: its headers and its snippet ("" when absent). */
  datatype Message = Message(headers: seq<Header>, snippet: string)

  /** The header dictionary: names lower-cased, a later header replacing an earlier one
      of the same name. */
  function HeaderMap(headers: seq<Header>): (m: map<string, string>)
    ensures forall h :: h in headers ==> Lower(h.name) in m
    decreases |headers|
  {
    if headers == [] then map[]
    else
      var last := headers[|headers| - 1];
      HeaderMap(headers[..|headers| - 1])[Lower(last.name) := last.value]
  }

  /** `headers.get(name, "")`. */
  function HeaderOr(m: map<string, string>, name: string): string {
    if name in m then m[name] else ""
  }

  /** The signal a message yields, or None when no keyword occurs in its lower-cased
      subject and snippet. An unparsable Date header stamps it with the current time. */
  function SignalOf(id: string, msg: Message, parse: string -> Option<Instant>, now: Instant): (r: Option<GmailSignal>)
    ensures var headers := HeaderMap(msg.headers);
      && (r.Some? <==> Matches(Lower(HeaderOr(headers, "subject") + " " + msg.snippet)) != [])
      && (r.Some? ==>
            && r.value.id == id && r.value.subject == HeaderOr(headers, "subject")
            && r.value.sender == HeaderOr(headers, "from")
            && |r.value.snippet| <= SnippetLimit && |r.value.snippet| <= |msg.snippet|
            && r.value.snippet == msg.snippet[..|r.value.snippet|]
            && r.value.signalTypes == Matches(Lower(r.value.subject + " " + msg.snippet))
            && r.value.date == parse(HeaderOr(headers, "date")).GetOr(now))
  {
    var headers := HeaderMap(msg.headers);
    var subject := HeaderOr(headers, "subject");
    var matched := Matches(Lower(subject + " " + msg.snippet));
    if matched == [] then None
    else
      var date := match parse(HeaderOr(headers, "date")) case Some(d) => d case None => now;
      Some(GmailSignal(id, subject, Lists.Take(msg.snippet, SnippetLimit), HeaderOr(headers, "from"), date, matched))
  }

  /** The signals of the listed messages: a message whose reply is not 200 is skipped. */
  function SignalsOf(ids: seq<string>, fetch: string -> Reply<Message>, parse: string -> Option<Instant>, now: Instant): seq<GmailSignal>
    decreases |ids|
  {
    if ids == [] then []
    else
      var earlier := SignalsOf(ids[..|ids| - 1], fetch, parse, now);
      var id := ids[|ids| - 1];
      var reply := fetch(id);
      if reply.status != 200 then earlier
      else match SignalOf(id, reply.body, parse, now)
        case Some(s) => earlier + [s]
        case None => earlier
  }

  /** Every signal comes from a listed message, names at least one type, and keeps at
      most 200 characters of snippet. */
  lemma {:induction false} SignalsSound(ids: seq<string>, fetch: string -> Reply<Message>, parse: string -> Option<Instant>, now: Instant)
    ensures |SignalsOf(ids, fetch, parse, now)| <= |ids|
    ensures forall s :: s in SignalsOf(ids, fetch, parse, now) ==>
      s.id in ids && s.signalTypes != [] && |s.snippet| <= SnippetLimit && fetch(s.id).status == 200
    decreases |ids|
  {
    if ids != [] {
      SignalsSound(ids[..|ids| - 1], fetch, parse, now);
      assert forall x :: x in ids[..|ids| - 1] ==> x in ids;
    }
  }

  /** `fetch_gmail_signals`: a failed message listing raises; otherwise each listed
      message is fetched, classified by a loop over the keywords, and kept when it
      matched. */
  method FetchGmailSignals(listing: Result<seq<string>, string>, fetch: string -> Reply<Message>,
                           parse: string -> Option<Instant>, now: Instant)
    returns (r: Result<seq<GmailSignal>, string>)
    ensures listing.Failure? ==> r == Failure(listing.error)
    ensures listing.Success? ==> r == Success(SignalsOf(listing.value, fetch, parse, now))
  {
    if listing.Failure? {
      return Failure(listing.error);
    }
    var ids := listing.value;
    var signals := [];
    var i := 0;
    while i < |ids|
      invariant 0 <= i <= |ids|
      invariant signals == SignalsOf(ids[..i], fetch, parse, now)
    {
      var id := ids[i];
      assert ids[..i + 1][..i] == ids[..i];
      var reply := fetch(id);
      if reply.status == 200 {
        var headers := HeaderMap(reply.body.headers);
        var subject := HeaderOr(headers, "subject");
        var matched := Classify(Lower(subject + " " + reply.body.snippet));
        if matched != [] {
          var date := match parse(HeaderOr(headers, "date")) case Some(d) => d case None => now;
          signals := signals + [GmailSignal(id, subject, Lists.Take(reply.body.snippet, SnippetLimit),
                                            HeaderOr(headers, "from"), date, matched)];
        }
      }
      i := i + 1;
    }
    assert ids[..i] == ids;
    r := Success(signals);
  }

  /** The keyword loop of `fetch_gmail_signals`. */
  method Classify(text: string) returns (matched: seq<SignalType>)
    ensures matched == Matches(text)
  {
    matched := [];
    var i := 0;
    while i < |Keywords|
      invariant 0 <= i <= |Keywords|
      invariant matched == MatchesIn(Keywords[..i], text)
    {
      var (kw, st) := Keywords[i];
      assert Keywords[..i + 1][..i] == Keywords[..i];
      if Contains(text, kw) {
        matched := matched + [st];
      }
      i := i + 1;
    }
    assert Keywords[..i] == Keywords;
  }

  // ---- Calendar ----

  /** An item's `start` or `end` object: its "dateTime" and "date" keys, when present. */
  datatype TimeField = TimeField(dateTime: Option<string>, date: Option<string>)

  /** One Calendar item; a missing `start` or `end` object has neither key. */
  datatype CalendarItem = CalendarItem(id: Option<string>, summary: Option<string>, start: TimeField, end: TimeField)

  const NoTitle: string := "(No title)"

  /** `raw.get("dateTime") or raw.get("date", "")`: an empty date-time falls back to the date. */
  function TimeText(f: TimeField): string {
    if f.dateTime.Some? && f.dateTime.value != "" then f.dateTime.value else f.date.GetOr("")
  }

  /** An all-day item has a date and no date-time in its start. */
  predicate AllDay(item: CalendarItem) {
    item.start.date.Some? && item.start.dateTime.None?
  }

  /** An item with both a start and an end text is turned into an event. */
  predicate Usable(item: CalendarItem) {
    TimeText(item.start) != "" && TimeText(item.end) != ""
  }

  /** The event for a usable item, or the parse error that aborts the whole fetch. */
  function EventOf(item: CalendarItem, parse: string -> Option<Instant>): (r: Result<CalendarEvent, string>)
    ensures r.Success? <==> parse(TimeText(item.start)).Some? && parse(TimeText(item.end)).Some?
    ensures r.Success? ==>
      && r.value.isAllDay == AllDay(item)
      && r.value.title == item.summary.GetOr(NoTitle) && r.value.id == item.id.GetOr("")
      && Some(r.value.start) == parse(TimeText(item.start)) && Some(r.value.end) == parse(TimeText(item.end))
      && r.value.source == "google_calendar"
  {
    match (parse(TimeText(item.start)), parse(TimeText(item.end)))
    case (Some(s), Some(e)) =>
      var ev := NewCalendarEvent(item.id.GetOr(""), item.summary.GetOr(NoTitle), s, e);
      Success(ev.(isAllDay := AllDay(item)))
    case _ => Failure("unparsable time")
  }

  /** The events of a listing: unusable items are skipped; a time that does not parse
      fails the whole fetch. */
  function EventsOf(items: seq<CalendarItem>, parse: string -> Option<Instant>): Result<seq<CalendarEvent>, string>
    decreases |items|
  {
    if items == [] then Success([])
    else
      var item := items[|items| - 1];
      match EventsOf(items[..|items| - 1], parse)
      case Failure(e) => Failure(e)
      case Success(earlier) =>
        if !Usable(item) then Success(earlier)
        else match EventOf(item, parse)
          case Failure(e) => Failure(e)
          case Success(ev) => Success(earlier + [ev])
  }

  /** The events correspond, in order, to the usable items: one each. */
  lemma {:induction false} EventsOfUsable(items: seq<CalendarItem>, parse: string -> Option<Instant>)
    ensures EventsOf(items, parse).Success? ==>
      && |EventsOf(items, parse).value| == |Lists.Filter(items, Usable)|
      && forall i :: 0 <= i < |EventsOf(items, parse).value| ==>
           EventOf(Lists.Filter(items, Usable)[i], parse) == Success(EventsOf(items, parse).value[i])
    decreases |items|
  {
    if items != [] {
      var front, item := items[..|items| - 1], items[|items| - 1];
      EventsOfUsable(front, parse);
      assert items == front + [item];
      Lists.FilterAppend(front, [item], Usable);
    }
  }

  /** Once a prefix of the items fails, the whole listing fails with the same error:
      the fetch stops at the first time that does not parse. */
  lemma {:induction false} EventsOfFailureSticks(items: seq<CalendarItem>, k: nat, parse: string -> Option<Instant>)
    requires k <= |items| && EventsOf(items[..k], parse).Failure?
    ensures EventsOf(items, parse) == EventsOf(items[..k], parse)
    decreases |items| - k
  {
    if k < |items| {
      assert items[..k + 1][..k] == items[..k];
      EventsOfFailureSticks(items, k + 1, parse);
    } else {
      assert items[..k] == items;
    }
  }

  /** `fetch_calendar_events`' window: from now and 14 days on, unless given. */
  function Window(timeMin: Option<Instant>, timeMax: Option<Instant>, now: Instant): (w: (Instant, Instant))
    ensures timeMin.None? ==> w.0 == now
    ensures timeMax.None? ==> w.1 == now + 14 * SecondsPerDay
    ensures timeMin.Some? ==> w.0 == timeMin.value
    ensures timeMax.Some? ==> w.1 == timeMax.value
  {
    (timeMin.GetOr(now), timeMax.GetOr(now + 14 * SecondsPerDay))
  }

  /** `fetch_calendar_events`: asks for the window's items, then maps them one by one.
      A failed request raises. */
  method FetchCalendarEvents(timeMin: Option<Instant>, timeMax: Option<Instant>, now: Instant,
                             request: (Instant, Instant) -> Result<seq<CalendarItem>, string>,
                             parse: string -> Option<Instant>)
    returns (r: Result<seq<CalendarEvent>, string>)
    ensures var w := Window(timeMin, timeMax, now);
      && (request(w.0, w.1).Failure? ==> r == Failure(request(w.0, w.1).error))
      && (request(w.0, w.1).Success? ==> r == EventsOf(request(w.0, w.1).value, parse))
  {
    var w := Window(timeMin, timeMax, now);
    var reply := request(w.0, w.1);
    if reply.Failure? {
      return Failure(reply.error);
    }
    var items := reply.value;
    var events := [];
    var i := 0;
    while i < |items|
      invariant 0 <= i <= |items|
      invariant EventsOf(items[..i], parse) == Success(events)
    {
      var item := items[i];
      assert items[..i + 1][..i] == items[..i];
      if Usable(item) {
        var ev := EventOf(item, parse);
        if ev.Failure? {
          EventsOfFailureSticks(items, i + 1, parse);
          return Failure(ev.error);
        }
        events := events + [ev.value];
      }
      i := i + 1;
    }
    assert items[..i] == items;
    r := Success(events);
  }

  // ---- Date-only times against the planner's day filter ----

  /** `isoparse` of a date-only text ("2026-03-01") gives a datetime without a time zone:
      the text came from the "date" key. A "dateTime" text from Calendar carries its offset. */
  predicate NaiveTime(f: TimeField) {
    !(f.dateTime.Some? && f.dateTime.value != "")
  }
}
