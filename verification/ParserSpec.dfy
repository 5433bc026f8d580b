/** The parser without cursors.

    The parser of logging/parse.go keeps two indexes, `start` and `end`, into a buffer that it
    scans rune by rune. Everything it ever reads through them is a slice of the text between
    `start` and the scan position. `Pending` keeps that text itself (`tail`) and the length of
    the current token in it (`width`, which is `end - start`). The class in Parser.dfy is proved
    to compute exactly these functions.
 */
module ParserSpec {
  import opened Results
  import opened Records
  import opened Text

  datatype State =
    | Date
    | Time
    | TransitionLevel
    | Level
    | TransitionThread
    | Thread
    | ThreadBracket
    | ThreadNoBracket
    | TransitionClass
    | Class
    | TransitionCallType
    | CallType
    | VerifyCallType
    | Key
    | MultiKey
    | Value
    | Error

  /** `state++`. */
  function Succ(s: State): State {
    match s
    case Date => Time
    case Time => TransitionLevel
    case TransitionLevel => Level
    case Level => TransitionThread
    case TransitionThread => Thread
    case Thread => ThreadBracket
    case ThreadBracket => ThreadNoBracket
    case ThreadNoBracket => TransitionClass
    case TransitionClass => Class
    case Class => TransitionCallType
    case TransitionCallType => CallType
    case CallType => VerifyCallType
    case VerifyCallType => Key
    case Key => MultiKey
    case MultiKey => Value
    case Value => Error
    case Error => Error
  }

  predicate IsTransition(s: State) {
    s.TransitionLevel? || s.TransitionThread? || s.TransitionClass? || s.TransitionCallType?
  }

  datatype PendingView = Pending(state: State, tail: string, width: nat, current: Record) {
    /** The text between the cursors. */
    function Token(): string
      requires width <= |tail|
    {
      tail[..width]
    }
  }

  type PendingLine = p: PendingView | p.width <= |p.tail| witness Pending(Date, "", 0, EMPTY_RECORD)

  const FRESH: PendingLine := Pending(Date, "", 0, EMPTY_RECORD)

  /** `end++`: the rune joins the token. */
  function Extend(p: PendingLine, r: string): PendingLine
    requires r != ""
  {
    p.(tail := p.tail + r, width := p.width + 1)
  }

  /** `start++; end++`. */
  function Skip(p: PendingLine, r: string): PendingLine
    requires r != ""
  {
    p.(tail := (p.tail + r)[1..])
  }

  /** `end++; start = end`: the token is over and the next one begins after it. */
  function Close(p: PendingLine, r: string, next: State, current: Record): PendingLine
    requires r != ""
  {
    Pending(next, (p.tail + r)[p.width + 1..], 0, current)
  }

  datatype Header = HDate | HTime | HLevel | HThread | HClass

  function SetHeader(l: Record, h: Header, v: string): Record {
    match h
    case HDate => l.(date := v)
    case HTime => l.(time := v)
    case HLevel => l.(level := v)
    case HThread => l.(thread := v)
    case HClass => l.(cls := v)
  }

  function SetLastValue(l: Record, v: string): Record
    requires l.props != []
  {
    var n := |l.props| - 1;
    l.(props := l.props[n := l.props[n].(value := v)])
  }

  /** `consumeCurrent` */
  function ConsumeCurrent(l: Record, token: string): Record {
    if l.props == [] then l else SetLastValue(l, token)
  }

  /** `consumeLog` */
  function ConsumeLog(l: Record, token: string): Record {
    if l.props == [] || l.props[|l.props| - 1].value != "" then
      l.(message := token)
    else
      SetLastValue(l, token)
  }

  function KeyStep(p: PendingLine, r: string): PendingLine
    requires r != ""
  {
    if r[0] == ' ' then
      if p.width == 0 then Skip(p, r) else p.(tail := p.tail + r)
    else if r[0] == ':' then
      Close(p, r, Value, p.current.(props := p.current.props + [Property(p.Token(), "")]))
    else
      Extend(p, r)
  }

  function MultiKeyStep(p: PendingLine, r: string): Outcome<PendingLine>
    requires r != ""
  {
    if r[0] == ' ' then
      if p.width == 0 || p.current.props == [] then
        Panic
      else
        var n := |p.current.props| - 1;
        var key := p.tail[..p.width - 1];
        Ok(Close(p, r, Value, p.current.(props := p.current.props[n := Property(key, "")])))
    else
      Ok(Extend(p, r).(state := Value))
  }

  function ValueStep(p: PendingLine, r: string): PendingLine
    requires r != ""
  {
    if r[0] == ',' then
      Close(p, r, Key, ConsumeCurrent(p.current, p.Token()))
    else if r[0] == ':' then
      Extend(p, r).(state := MultiKey)
    else if r[0] == ' ' && p.width == 0 then
      Skip(p, r)
    else
      Extend(p, r)
  }

  predicate IsDateChar(c: char) {
    '0' <= c <= '9' || c == ':' || c == ',' || c == '.' || c == '-'
  }

  function DateStep(p: PendingLine, h: Header, r: string): PendingLine
    requires r != ""
  {
    if r[0] == '[' then
      Skip(p, r)
    else if IsDateChar(r[0]) then
      Extend(p, r)
    else
      Close(p, r, Succ(p.state), SetHeader(p.current, h, p.Token()))
  }

  function HeaderStep(p: PendingLine, h: Header, r: string): PendingLine
    requires r != ""
  {
    if r[0] == '[' then
      Skip(p, r)
    else if r[0] == '\t' || r[0] == ' ' || r[0] == ']' then
      Close(p, r, Succ(p.state), SetHeader(p.current, h, p.Token()))
    else
      Extend(p, r)
  }

  function ThreadBracketStep(p: PendingLine, r: string): PendingLine
    requires r != ""
  {
    if r[0] == ']' || r[0] == '\t' then
      Close(p, r, TransitionClass, SetHeader(p.current, HThread, p.Token()))
    else
      Extend(p, r)
  }

  function ThreadStep(p: PendingLine, r: string): PendingLine
    requires r != ""
  {
    if r[0] == '[' then
      Skip(p, r).(state := ThreadBracket)
    else
      HeaderStep(p.(state := ThreadNoBracket), HThread, r)
  }

  function CallTypeStep(p: PendingLine, r: string): PendingLine
    requires r != ""
  {
    if r[0] == ':' then
      Close(p, r, Succ(p.state),
            p.current.(props := p.current.props + [Property(KEY_CALL_TYPE, p.Token())]))
    else
      Extend(p, r)
  }

  function VerifyCallTypeStep(p: PendingLine, r: string): Outcome<PendingLine>
    requires r != ""
  {
    if r[0] == ',' then
      if p.current.props == [] then
        Panic
      else
        var first := p.current.props[0];
        var renamed := p.current.(props := p.current.props[0 := first.(key := first.value)]);
        Ok(ValueStep(p.(current := renamed), r))
    else
      Ok(KeyStep(p, r))
  }

  predicate IsBlank(c: char) {
    c == '\t' || c == ' '
  }

  /** `next`: one rune, `r` being its bytes. No rune of several bytes starts with an ASCII byte,
      so the first byte decides every branch. */
  function Step(p: PendingLine, r: string): (o: Outcome<PendingLine>)
    requires r != ""
    decreases IsTransition(p.state)
  {
    match p.state
    case Date => Ok(DateStep(p, HDate, r))
    case Time => Ok(DateStep(p, HTime, r))
    case Level => Ok(HeaderStep(p, HLevel, r))
    case Thread => Ok(ThreadStep(p, r))
    case ThreadBracket => Ok(ThreadBracketStep(p, r))
    case ThreadNoBracket => Ok(HeaderStep(p, HThread, r))
    case Class => Ok(HeaderStep(p, HClass, r))
    case CallType => Ok(CallTypeStep(p, r))
    case VerifyCallType => VerifyCallTypeStep(p, r)
    case Key => Ok(KeyStep(p, r))
    case Value => Ok(ValueStep(p, r))
    case MultiKey => MultiKeyStep(p, r)
    case Error => Ok(p.(tail := p.tail + r))
    case _ =>
      if IsBlank(r[0]) then Ok(Skip(p, r)) else Step(p.(state := Succ(p.state)), r)
  }

  /** What a scan leaves: the unfinished line, and the logs of the finished ones. */
  datatype Scanned = Scanned(pending: PendingLine, logs: seq<Record>)

  /** The outcome of a scan that went on after `logs` had been completed. */
  function Prepend(logs: seq<Record>, o: Outcome<Scanned>): Outcome<Scanned> {
    if o.Panic? then Panic else Ok(o.value.(logs := logs + o.value.logs))
  }

  lemma PrependTwice(a: seq<Record>, b: seq<Record>, o: Outcome<Scanned>)
    ensures Prepend(a, Prepend(b, o)) == Prepend(a + b, o)
  {
    if o.Ok? {
      LogsAssoc(a, b, o.value.logs);
    }
  }

  lemma LogsAssoc(a: seq<Record>, b: seq<Record>, c: seq<Record>)
    ensures a + b + c == a + (b + c)
  {
  }

  lemma PrependNothing(o: Outcome<Scanned>)
    ensures Prepend([], o) == o
  {
    if o.Ok? {
      assert [] + o.value.logs == o.value.logs;
    }
  }

  /** The rune loop of `Parse`. */
  function Scan(p: PendingLine, text: string): Outcome<Scanned>
    decreases |text|
  {
    if text == "" then
      Ok(Scanned(p, []))
    else if text[0] == '\n' then
      Prepend([ConsumeLog(p.current, p.Token())], Scan(FRESH, text[1..]))
    else
      var w := RuneWidth(text);
      var q :- Step(p, text[..w]);
      Scan(q, text[w..])
  }

  lemma ScanEnd(logs: seq<Record>, p: PendingLine)
    ensures Prepend(logs, Scan(p, "")) == Ok(Scanned(p, logs))
  {
    assert logs + [] == logs;
  }

  /** Between two calls of `Parse` the token is forgotten but its text is kept. */
  function Rewind(p: PendingLine): PendingLine {
    p.(tail := "", width := 0)
  }

  /** `Parse(chunk)`: the kept text is scanned again, in the state and with the log left behind. */
  function Feed(p: PendingLine, chunk: string): Outcome<Scanned> {
    Scan(Rewind(p), p.tail + chunk)
  }

  function FeedAll(p: PendingLine, chunks: seq<string>): Outcome<Scanned>
    decreases |chunks|
  {
    if chunks == [] then
      Ok(Scanned(p, []))
    else
      var first :- Feed(p, chunks[0]);
      Prepend(first.logs, FeedAll(first.pending, chunks[1..]))
  }
}
