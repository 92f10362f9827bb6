/**
 * Today's formal context: which calendar events are formal, which stored
 * outfits are today's formal outfits, and the warning that lists the formal
 * events when no formal outfit can be put together.
 */
module Events {
  import opened Builtins
  import opened Wardrobe

  const FORMAL_KEYWORDS: seq<string> := ["conference", "interview", "meeting", "presentation", "speech"]

  /** The words of a summary: lower-cased, then split on single spaces. */
  function Words(summary: string): (ws: seq<string>)
    ensures forall w :: w in ws ==> ' ' !in w
    ensures Join(ws, ' ') == Lower(summary)
  {
    SplitPiecesHaveNoSeparator(Lower(summary), ' ');
    JoinSplit(Lower(summary), ' ');
    Split(Lower(summary), ' ')
  }

  /** A summary is formal when one of its words is exactly a keyword. */
  predicate IsFormalSummary(summary: string)
  {
    exists w :: w in Words(summary) && w in FORMAL_KEYWORDS
  }

  /** The formal summaries, each once, in calendar order. */
  function FormalSummaries(summaries: seq<string>): seq<string>
  {
    Filter(summaries, IsFormalSummary)
  }

  /** Exactly the formal summaries are kept, in calendar order, each once per occurrence. */
  lemma FormalSummariesMembers(summaries: seq<string>)
    ensures forall s :: s in FormalSummaries(summaries) <==> s in summaries && IsFormalSummary(s)
    ensures |FormalSummaries(summaries)| <= |summaries|
  {
    FilterMembers(summaries, IsFormalSummary);
  }

  /** Reading a summary whose lower-cased text is the given words joined by spaces. */
  lemma WordsOfJoined(summary: string, ws: seq<string>)
    requires |ws| >= 1
    requires forall w :: w in ws ==> ' ' !in w
    requires Lower(summary) == Join(ws, ' ')
    ensures Words(summary) == ws
    ensures IsFormalSummary(summary) <==> exists w :: w in ws && w in FORMAL_KEYWORDS
  {
    SplitJoin(ws, ' ');
  }

  /** "formal meeting event" is formal: its second word is a keyword. */
  lemma FormalMeetingEventIsFormal()
    ensures IsFormalSummary("formal meeting event")
  {
    var ws := ["formal", "meeting", "event"];
    assert Lower("formal meeting event") == Join(ws, ' ');
    WordsOfJoined("formal meeting event", ws);
    assert "meeting" in ws && "meeting" in FORMAL_KEYWORDS;
  }

  /** "regular event" is not formal: neither word is a keyword. */
  lemma RegularEventIsNotFormal()
    ensures !IsFormalSummary("regular event")
  {
    var ws := ["regular", "event"];
    assert Lower("regular event") == Join(ws, ' ');
    WordsOfJoined("regular event", ws);
  }

  /** Matching ignores ASCII case: "Team Meeting Today" is formal. */
  lemma CapitalisedMeetingIsFormal()
    ensures IsFormalSummary("Team Meeting Today")
  {
    var ws := ["team", "meeting", "today"];
    assert LowerChar('T') == 't' && LowerChar('M') == 'm';
    assert Lower("Team Meeting Today") == Join(ws, ' ');
    WordsOfJoined("Team Meeting Today", ws);
    assert "meeting" in ws && "meeting" in FORMAL_KEYWORDS;
  }

  /** Whole words only: "Meetingroom booking" contains "meeting" but is not formal. */
  lemma SubstringIsNotAWord()
    ensures !IsFormalSummary("Meetingroom booking")
  {
    var ws := ["meetingroom", "booking"];
    assert LowerChar('M') == 'm';
    assert Lower("Meetingroom booking") == Join(ws, ' ');
    assert |"meetingroom"| == 11 && "meetingroom" !in FORMAL_KEYWORDS;
    assert "booking" !in FORMAL_KEYWORDS;
    WordsOfJoined("Meetingroom booking", ws);
  }

  /** `created.toISOString().substr(0, 10)` throws on an invalid date with this message. */
  const INVALID_TIME_VALUE := "Invalid time value"

  /** The stored outfits created today (the date prefix equals `today`) whose occasions include "formal". */
  predicate IsTodayFormal(o: OutfitRecord, today: string)
    requires o.created.Instant?
  {
    Prefix(o.created.iso, 10) == today && FORMAL in o.occasions
  }

  /**
   * The filter at the start of generation. Reading the date of an outfit
   * with an invalid date throws, and the filter reads the date of every
   * outfit, so one invalid date anywhere makes the whole filter throw.
   */
  function TodayFormalOutfits(os: seq<OutfitRecord>, today: string): (r: Result<seq<OutfitRecord>>)
    ensures r.Thrown? <==> exists o :: o in os && o.created.InvalidDate?
    ensures r.Thrown? ==> r.error == INVALID_TIME_VALUE
    ensures r.Value? ==> forall o :: o in r.value <==> o in os && IsTodayFormal(o, today)
  {
    if os == [] then Value([])
    else if os[0].created.InvalidDate? then Thrown(INVALID_TIME_VALUE)
    else
      match TodayFormalOutfits(os[1..], today)
      case Thrown(e) => Thrown(e)
      case Value(rest) =>
        assert forall o :: o in os <==> o == os[0] || o in os[1..];
        Value((if IsTodayFormal(os[0], today) then [os[0]] else []) + rest)
  }

  /** A value, or the message of the exception that replaced it. */
  datatype Result<+T> = Value(value: T) | Thrown(error: string)

  const NO_FORMAL_CLOTHES_WARNING := "We notice you have these events today, but you do not have any formal clothes!\n"

  /** Each event followed by a line break, in order: what the warning loop appends. */
  function EventLines(events: seq<string>): string
  {
    if events == [] then [] else EventLines(events[..|events| - 1]) + events[|events| - 1] + "\n"
  }

  /** The warning of the formal selection when there are too few formal clothes. */
  function FormalWarning(events: seq<string>): string
  {
    NO_FORMAL_CLOTHES_WARNING + EventLines(events)
  }

  /** Joining one more piece adds a separator and the piece at the end. */
  lemma {:induction false} JoinSnoc(ws: seq<string>, w: string, sep: char)
    requires |ws| >= 1
    ensures Join(ws + [w], sep) == Join(ws, sep) + [sep] + w
  {
    if |ws| == 1 {
      assert (ws + [w])[1..] == [w];
    } else {
      assert (ws + [w])[1..] == ws[1..] + [w];
      JoinSnoc(ws[1..], w, sep);
    }
  }

  /** The event lines are the events joined by line breaks, with a final line break. */
  lemma {:induction false} EventLinesAreJoined(events: seq<string>)
    requires |events| >= 1
    ensures EventLines(events) == Join(events, '\n') + "\n"
  {
    var n := |events|;
    if n > 1 {
      var init := events[..n - 1];
      EventLinesAreJoined(init);
      JoinSnoc(init, events[n - 1], '\n');
      assert init + [events[n - 1]] == events;
    } else {
      assert events[..0] == [];
    }
  }

  /**
   * The warning lists the events so that they can be read back: after the
   * fixed sentence, dropping the final line break and splitting on line
   * breaks gives the events, provided no event spans several lines.
   */
  lemma EventsReadBackFromWarning(events: seq<string>)
    requires |events| >= 1
    requires forall e :: e in events ==> '\n' !in e
    ensures |FormalWarning(events)| > |NO_FORMAL_CLOTHES_WARNING|
    ensures FormalWarning(events)[..|NO_FORMAL_CLOTHES_WARNING|] == NO_FORMAL_CLOTHES_WARNING
    ensures Split(FormalWarning(events)[|NO_FORMAL_CLOTHES_WARNING|..|FormalWarning(events)| - 1], '\n') == events
  {
    EventLinesAreJoined(events);
    var w := FormalWarning(events);
    var h := |NO_FORMAL_CLOTHES_WARNING|;
    assert w[h..|w| - 1] == Join(events, '\n');
    SplitJoin(events, '\n');
  }
}
