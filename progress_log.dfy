/**
 * The progress log of the spreadsheet import. Messages reported by the SQL job
 * are appended to one pipe-delimited string kept in the session under "log";
 * each timer tick splits that string on '|', shows every non-blank piece
 * followed by "<br>", and leaves the empty string behind.
 */
module ProgressLog {
  import opened Wrappers
  import opened Text

  /** The value of Session["log"] after LogEvent(message): a blank message is
      ignored, a missing log becomes the message, otherwise "|" + message is
      appended. */
  function AppendLog(log: Option<string>, message: string): (r: Option<string>)
    ensures IsBlank(message) ==> r == log
    ensures !IsBlank(message) ==> r.Some? && Split(r.value, '|') == Pieces(log) + Split(message, '|')
  {
    if IsBlank(message) then log
    else match log
      case None => Some(message)
      case Some(text) => SplitConcat(text, message, '|'); Some(text + "|" + message)
  }

  /** The pieces a tick would split the log into; none when there is no log. */
  function Pieces(log: Option<string>): seq<string> {
    match log
    case None => []
    case Some(text) => Split(text, '|')
  }

  /** The text a tick appends for these pieces: each non-blank piece followed by "<br>". */
  function Rendered(pieces: seq<string>): string
    decreases |pieces|
  {
    if |pieces| == 0 then ""
    else
      var last := pieces[|pieces| - 1];
      Rendered(pieces[..|pieces| - 1]) + (if IsBlank(last) then "" else last + "<br>")
  }

  /** What a tick shows for this log. */
  function Shown(log: Option<string>): string {
    Rendered(Pieces(log))
  }

  /** Rendering distributes over concatenation of piece lists. */
  lemma {:induction false} RenderedConcat(a: seq<string>, b: seq<string>)
    ensures Rendered(a + b) == Rendered(a) + Rendered(b)
    decreases |b|
  {
    if |b| > 0 {
      assert (a + b)[..|a + b| - 1] == a + b[..|b| - 1];
      RenderedConcat(a, b[..|b| - 1]);
    } else {
      assert a + b == a;
    }
  }

  /** Blank pieces render as nothing. */
  lemma {:induction false} RenderedBlank(pieces: seq<string>)
    requires forall i :: 0 <= i < |pieces| ==> IsBlank(pieces[i])
    ensures Rendered(pieces) == ""
    decreases |pieces|
  {
    if |pieces| > 0 {
      RenderedBlank(pieces[..|pieces| - 1]);
    }
  }

  /** After a drain the log is the empty string, which shows nothing. */
  lemma DrainedShowsNothing()
    ensures Shown(Some("")) == ""
  {
    assert Split("", '|') == [""];
    assert Rendered([""]) == Rendered([]) + "";
  }

  /** Appending a message adds exactly the message's own rendering to what the
      next tick shows, whatever the log held before. */
  lemma AppendShown(log: Option<string>, message: string)
    ensures Shown(AppendLog(log, message)) == Shown(log) + Rendered(Split(message, '|'))
  {
    if IsBlank(message) {
      SplitBlank(message, '|');
      RenderedBlank(Split(message, '|'));
    } else {
      RenderedConcat(Pieces(log), Split(message, '|'));
    }
  }

  /** A non-blank message without '|' is shown as itself followed by "<br>". */
  lemma SingleMessageShown(log: Option<string>, message: string)
    requires !IsBlank(message) && '|' !in message
    ensures Shown(AppendLog(log, message)) == Shown(log) + message + "<br>"
  {
    AppendShown(log, message);
    SplitWithoutSeparator(message, '|');
    assert Rendered([message]) == message + "<br>" by {
      assert [message][..0] == [];
    }
    Associative(Shown(log), message, "<br>");
  }

  /** The log after the messages are reported one after another. */
  function AppendAll(log: Option<string>, messages: seq<string>): Option<string>
    decreases |messages|
  {
    if |messages| == 0 then log else AppendLog(AppendAll(log, messages[..|messages| - 1]), messages[|messages| - 1])
  }

  /** The messages' renderings, in order. */
  function RenderedAll(messages: seq<string>): string
    decreases |messages|
  {
    if |messages| == 0 then ""
    else RenderedAll(messages[..|messages| - 1]) + Rendered(Split(messages[|messages| - 1], '|'))
  }

  /** Reporting several messages adds their renderings, in order, to what the next tick shows. */
  lemma {:induction false} AppendAllShown(log: Option<string>, messages: seq<string>)
    ensures Shown(AppendAll(log, messages)) == Shown(log) + RenderedAll(messages)
    decreases |messages|
  {
    if |messages| == 0 {
      assert Shown(log) + "" == Shown(log);
    } else {
      var init := messages[..|messages| - 1];
      var m := messages[|messages| - 1];
      AppendAllShown(log, init);
      AppendShown(AppendAll(log, init), m);
      Associative(Shown(log), RenderedAll(init), Rendered(Split(m, '|')));
    }
  }

  /** One thing that happens to the log: a message is reported, or the timer ticks. */
  datatype LogEvent = Report(message: string) | Tick

  /** The session log and the status text the ticks have built up. */
  datatype Display = Display(log: Option<string>, status: string)

  /** A tick on a missing log does nothing; otherwise it shows the log and drains it. */
  function Step(d: Display, e: LogEvent): Display {
    match e
    case Report(m) => d.(log := AppendLog(d.log, m))
    case Tick => if d.log.None? then d else Display(Some(""), d.status + Shown(d.log))
  }

  function Run(d: Display, events: seq<LogEvent>): Display
    decreases |events|
  {
    if |events| == 0 then d else Run(Step(d, events[0]), events[1..])
  }

  /** What one event contributes to the page: a report its message's rendering, a tick nothing new. */
  function Contribution(e: LogEvent): string {
    match e
    case Report(m) => Rendered(Split(m, '|'))
    case Tick => ""
  }

  /** Everything the reported messages render to, in report order. */
  function Reported(events: seq<LogEvent>): string
    decreases |events|
  {
    if |events| == 0 then "" else Contribution(events[0]) + Reported(events[1..])
  }

  /** One event keeps "status shown so far plus what the next tick shows" growing
      by exactly that event's contribution. */
  lemma StepShowsOnce(d: Display, e: LogEvent)
    ensures Step(d, e).status + Shown(Step(d, e).log) == d.status + Shown(d.log) + Contribution(e)
  {
    match e
    case Report(m) =>
      AppendShown(d.log, m);
    case Tick =>
      if d.log.Some? {
        DrainedShowsNothing();
      }
  }

  /** Interleave reports and ticks in any order: the status text already shown
      plus what the next tick would show is the old display followed by every
      reported message, in order; nothing is lost or shown twice. */
  lemma {:induction false} RunShowsEachOnce(d: Display, events: seq<LogEvent>)
    ensures Run(d, events).status + Shown(Run(d, events).log) == d.status + Shown(d.log) + Reported(events)
    decreases |events|
  {
    if |events| > 0 {
      assert Reported(events) == Contribution(events[0]) + Reported(events[1..]);
      var next := Step(d, events[0]);
      assert Run(d, events) == Run(next, events[1..]);
      StepShowsOnce(d, events[0]);
      RunShowsEachOnce(next, events[1..]);
      Associative(d.status + Shown(d.log), Contribution(events[0]), Reported(events[1..]));
    }
  }

  lemma Associative(a: string, b: string, c: string)
    ensures a + b + c == a + (b + c)
  {
  }

  /** In particular, starting from no log and an empty status, a final tick
      leaves exactly the reported messages on the page. */
  lemma FinalTickShowsAll(events: seq<LogEvent>)
    requires Run(Display(None, ""), events).log.Some?
    ensures Step(Run(Display(None, ""), events), Tick).status == Reported(events)
  {
    RunShowsEachOnce(Display(None, ""), events);
  }
}
