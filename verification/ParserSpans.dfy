/** Span discipline: the index ranges that the parser takes for the fields of a log.

    What a step does to the log depends on the state and the rune alone (`ActOf`). Doing the same
    to a log of ranges, beside the scan, records where every field was cut from.
 */
module ParserSpans {
  import opened Results
  import opened Records
  import opened Text
  import opened ParserSpec
  import opened ParserSafety

  // What a step does to the log

  datatype Act =
    | Keep
    | Field(header: Header)  // the token is a header field
    | CallTypeEnd            // it is the value of a new property `callType`
    | KeyEnd                 // it is a new key
    | ValueEnd               // it is the value of the last key
    | DoubleKey              // without its colon it replaces the last key
    | Rename                 // what was taken for the call type is a key, and the token its value

  function ActOf(s: State, c: char): Act
    decreases IsTransition(s)
  {
    match s
    case Date => if c == '[' || IsDateChar(c) then Keep else Field(HDate)
    case Time => if c == '[' || IsDateChar(c) then Keep else Field(HTime)
    case Level => if c in "\t ]" then Field(HLevel) else Keep
    case Thread => if c in "\t ]" then Field(HThread) else Keep
    case ThreadBracket => if c in "\t]" then Field(HThread) else Keep
    case ThreadNoBracket => if c in "\t ]" then Field(HThread) else Keep
    case Class => if c in "\t ]" then Field(HClass) else Keep
    case CallType => if c == ':' then CallTypeEnd else Keep
    case VerifyCallType => if c == ',' then Rename else if c == ':' then KeyEnd else Keep
    case Key => if c == ':' then KeyEnd else Keep
    case Value => if c == ',' then ValueEnd else Keep
    case MultiKey => if c == ' ' then DoubleKey else Keep
    case Error => Keep
    case _ => if IsBlank(c) then Keep else ActOf(Succ(s), c)
  }

  function Renamed(l: Record): Record {
    if l.props == [] then l else l.(props := l.props[0 := l.props[0].(key := l.props[0].value)])
  }

  function Effect(l: Record, a: Act, token: string): Record {
    match a
    case Keep => l
    case Field(h) => SetHeader(l, h, token)
    case CallTypeEnd => l.(props := l.props + [Property(KEY_CALL_TYPE, token)])
    case KeyEnd => l.(props := l.props + [Property(token, "")])
    case ValueEnd => ConsumeCurrent(l, token)
    case DoubleKey =>
      if l.props == [] || token == "" then l
      else l.(props := l.props[|l.props| - 1 := Property(token[..|token| - 1], "")])
    case Rename => ConsumeCurrent(Renamed(l), token)
  }

  /** The act of a step is its whole effect on the log. */
  lemma StepEffect(p: PendingLine, r: string)
    requires r != "" && Step(p, r).Ok?
    ensures Step(p, r).value.current == Effect(p.current, ActOf(p.state, r[0]), p.Token())
    decreases IsTransition(p.state)
  {
    if IsTransition(p.state) && !IsBlank(r[0]) {
      StepEffect(p.(state := Succ(p.state)), r);
    } else if p.state.MultiKey? && r[0] == ' ' {
      assert p.Token()[..p.width - 1] == p.tail[..p.width - 1];
    }
  }

  /** A step that takes the token goes on right after it. */
  lemma StepCloses(p: PendingLine, r: string)
    requires r != "" && Step(p, r).Ok? && !ActOf(p.state, r[0]).Keep?
    ensures Step(p, r).value.tail == (p.tail + r)[p.width + 1..]
    decreases IsTransition(p.state)
  {
    if IsTransition(p.state) {
      StepCloses(p.(state := Succ(p.state)), r);
    }
  }

  // Ranges

  datatype Span = Span(lo: nat, hi: nat)

  /** A key without a range is `callType`, which the parser supplies itself. */
  datatype PropSpans = PropSpans(key: Option<Span>, value: Option<Span>)

  /** The properties found so far, the last one in front. */
  datatype PropList = Nil | Snoc(before: PropList, last: PropSpans)

  datatype LogSpans = LogSpans(
    date: Option<Span>,
    time: Option<Span>,
    level: Option<Span>,
    thread: Option<Span>,
    cls: Option<Span>,
    props: PropList,
    message: Option<Span>)

  const NO_SPANS := LogSpans(None, None, None, None, None, Nil, None)

  function PutHeader(l: LogSpans, h: Header, s: Span): LogSpans {
    match h
    case HDate => l.(date := Some(s))
    case HTime => l.(time := Some(s))
    case HLevel => l.(level := Some(s))
    case HThread => l.(thread := Some(s))
    case HClass => l.(cls := Some(s))
  }

  function Append(l: LogSpans, p: PropSpans): LogSpans {
    l.(props := Snoc(l.props, p))
  }

  function Butlast(l: LogSpans): LogSpans
    requires l.props.Snoc?
  {
    l.(props := l.props.before)
  }

  function PutLast(l: LogSpans, p: PropSpans): LogSpans
    requires l.props.Snoc?
  {
    l.(props := Snoc(l.props.before, p))
  }

  function PutValue(l: LogSpans, s: Span): LogSpans {
    if l.props.Nil? then l else PutLast(l, l.props.last.(value := Some(s)))
  }

  function PutKey(l: LogSpans, s: Span): LogSpans {
    if l.props.Nil? then l else PutLast(l, PropSpans(Some(s), None))
  }

  /** The act, with the range of the token in place of its text. */
  function SpanEffect(l: LogSpans, a: Act, s: Span): LogSpans {
    match a
    case Keep => l
    case Field(h) => PutHeader(l, h, s)
    case CallTypeEnd => Append(l, PropSpans(None, Some(s)))
    case KeyEnd => Append(l, PropSpans(Some(s), None))
    case ValueEnd => PutValue(l, s)
    case DoubleKey => if s.lo < s.hi then PutKey(l, Span(s.lo, s.hi - 1)) else l
    case Rename => if l.props.Nil? then l else PutLast(l, PropSpans(l.props.last.value, Some(s)))
  }

  function Cut(text: string, s: Option<Span>): string {
    if s.None? || s.value.hi < s.value.lo || s.value.hi > |text| then "" else text[s.value.lo..s.value.hi]
  }

  function CutProp(text: string, p: PropSpans): Property {
    Property(if p.key.None? then KEY_CALL_TYPE else Cut(text, p.key), Cut(text, p.value))
  }

  function CutProps(text: string, ps: PropList): seq<Property> {
    match ps
    case Nil => []
    case Snoc(before, last) => CutProps(text, before) + [CutProp(text, last)]
  }

  /** The log with its texts. */
  function CutLog(text: string, l: LogSpans): Record {
    Record(Cut(text, l.date), Cut(text, l.time), Cut(text, l.level), Cut(text, l.thread), Cut(text, l.cls),
           Cut(text, l.message), CutProps(text, l.props))
  }

  lemma LastReplaced(ps: seq<Property>, was: Property, now: Property)
    ensures (ps + [was])[|ps + [was]| - 1 := now] == ps + [now]
  {
  }

  lemma CutReplaceLast(text: string, l: LogSpans, p: PropSpans)
    requires l.props.Snoc?
    ensures var r := CutLog(text, l);
            r.props != [] && CutLog(text, PutLast(l, p)) == r.(props := r.props[|r.props| - 1 := CutProp(text, p)])
  {
    LastReplaced(CutProps(text, l.props.before), CutProp(text, l.props.last), CutProp(text, p));
  }

  /** What a state says about the log: which fields are still to come. */
  function Rank(s: State): nat {
    match s
    case Date => 0
    case Time => 1
    case TransitionLevel => 2
    case Level => 2
    case TransitionThread => 3
    case Thread => 3
    case ThreadBracket => 3
    case ThreadNoBracket => 3
    case TransitionClass => 4
    case Class => 4
    case TransitionCallType => 5
    case CallType => 5
    case _ => 6
  }

  /** The call type alone. */
  predicate IsCallType(ps: PropList) {
    ps.Snoc? && ps.before.Nil? && ps.last.key.None? && ps.last.value.Some?
  }

  /** A key without its value, after other properties. */
  predicate IsOpen(ps: PropList) {
    ps.Snoc? && ps.before.Snoc? && ps.last.value.None?
  }

  predicate Phase(s: State, l: LogSpans) {
    && !s.Error?
    && l.message.None?
    && (Rank(s) < 6 ==> l.props.Nil?)
    && (Rank(s) < 5 ==> l.cls.None?)
    && (Rank(s) < 4 ==> l.thread.None?)
    && (Rank(s) < 3 ==> l.level.None?)
    && (Rank(s) < 2 ==> l.time.None?)
    && (Rank(s) < 1 ==> l.date.None?)
    && (s.VerifyCallType? ==> IsCallType(l.props))
    && (s.Key? ==> l.props.Snoc?)
    && (s.Value? || s.MultiKey? ==> IsOpen(l.props))
  }

  /** What the log must be like for an act. */
  predicate CanAct(l: LogSpans, a: Act) {
    && l.message.None?
    && match a
       case Keep => true
       case Field(h) =>
         && l.props.Nil? && l.cls.None?
         && (!h.HClass? ==> l.thread.None?)
         && (!h.HClass? && !h.HThread? ==> l.level.None?)
         && (h.HDate? || h.HTime? ==> l.time.None?)
         && (h.HDate? ==> l.date.None?)
       case CallTypeEnd => l.props.Nil?
       case KeyEnd => l.props.Snoc?
       case ValueEnd => IsOpen(l.props)
       case DoubleKey => IsOpen(l.props)
       case Rename => IsCallType(l.props)
  }

  lemma PhaseAllows(s: State, l: LogSpans, c: char)
    requires Phase(s, l)
    ensures CanAct(l, ActOf(s, c))
  {
    if IsTransition(s) && !IsBlank(c) {
      assert Phase(Succ(s), l);
    }
  }

  lemma CutRename(text: string, l: LogSpans, s: Span)
    requires CanAct(l, Rename)
    ensures CutLog(text, SpanEffect(l, Rename, s)) == Effect(CutLog(text, l), Rename, Cut(text, Some(s)))
  {
    var r, x := CutLog(text, l), l.props.last;
    assert CutProps(text, l.props.before) == [];
    assert r.props == [CutProp(text, x)];
    assert Renamed(r).props == [Property(Cut(text, x.value), Cut(text, x.value))];
    assert CutProps(text, Snoc(Nil, PropSpans(x.value, Some(s)))) == [Property(Cut(text, x.value), Cut(text, Some(s)))];
  }

  lemma CutDoubleKey(text: string, l: LogSpans, s: Span)
    requires l.props.Snoc? && s.lo <= s.hi <= |text|
    ensures CutLog(text, SpanEffect(l, DoubleKey, s)) == Effect(CutLog(text, l), DoubleKey, Cut(text, Some(s)))
  {
    if s.lo < s.hi {
      CutReplaceLast(text, l, PropSpans(Some(Span(s.lo, s.hi - 1)), None));
      assert text[s.lo..s.hi][..s.hi - s.lo - 1] == text[s.lo..s.hi - 1];
    }
  }

  /** The act on ranges is the act on texts. */
  lemma CutEffect(text: string, l: LogSpans, a: Act, s: Span)
    requires CanAct(l, a) && s.lo <= s.hi <= |text|
    ensures CutLog(text, SpanEffect(l, a, s)) == Effect(CutLog(text, l), a, Cut(text, Some(s)))
  {
    match a
    case Keep =>
    case Field(h) =>
    case CallTypeEnd =>
    case KeyEnd =>
    case ValueEnd => CutReplaceLast(text, l, l.props.last.(value := Some(s)));
    case DoubleKey => CutDoubleKey(text, l, s);
    case Rename => CutRename(text, l, s);
  }

  // Order

  /** Ranges inside `lo..hi`, left to right and without overlap. */
  predicate Ordered(spans: seq<Span>, lo: nat, hi: nat) {
    && lo <= hi
    && (forall k | 0 <= k < |spans| :: lo <= spans[k].lo <= spans[k].hi <= hi)
    && (forall j, k | 0 <= j < k < |spans| :: spans[j].hi <= spans[k].lo)
  }

  function Opt(s: Option<Span>): seq<Span> {
    if s.None? then [] else [s.value]
  }

  function PropSpansOf(ps: PropList): seq<Span> {
    match ps
    case Nil => []
    case Snoc(before, last) => PropSpansOf(before) + (Opt(last.key) + Opt(last.value))
  }

  function HeaderSpans(l: LogSpans): seq<Span> {
    Opt(l.date) + Opt(l.time) + Opt(l.level) + Opt(l.thread) + Opt(l.cls)
  }

  /** All ranges of a log, in the order of the line format. */
  function Spans(l: LogSpans): seq<Span> {
    HeaderSpans(l) + PropSpansOf(l.props) + Opt(l.message)
  }

  lemma OrderedLater(spans: seq<Span>, lo: nat, hi: nat, hi': nat)
    requires Ordered(spans, lo, hi) && hi <= hi'
    ensures Ordered(spans, lo, hi')
  {
  }

  lemma OrderedSnoc(first: seq<Span>, rest: seq<Span>, lo: nat, hi: nat, s: Span, hi': nat)
    requires Ordered(first + rest, lo, hi) && hi <= s.lo <= s.hi <= hi'
    ensures Ordered(first + [s], lo, hi')
  {
    assert forall k | 0 <= k < |first| :: (first + rest)[k] == first[k];
  }

  lemma Whole(spans: seq<Span>)
    ensures spans + [] == spans && [] + spans == spans
  {
  }

  lemma SpansAssoc(a: seq<Span>, b: seq<Span>, c: seq<Span>)
    ensures a + b + c == a + (b + c)
  {
  }

  lemma HeaderTakes(l: LogSpans, h: Header, s: Span)
    requires CanAct(l, Field(h))
    ensures Spans(PutHeader(l, h, s)) == Spans(l) + [s]
  {
  }

  /** The ranges of a new property come last. */
  lemma AppendTakes(l: LogSpans, p: PropSpans)
    requires l.message.None?
    ensures Spans(Append(l, p)) == Spans(l) + (Opt(p.key) + Opt(p.value))
  {
    var header, props, more := HeaderSpans(l), PropSpansOf(l.props), Opt(p.key) + Opt(p.value);
    Whole(header + props);
    Whole(header + (props + more));
    SpansAssoc(header, props, more);
  }

  /** Those of the last property can be replaced. */
  lemma LastTakes(l: LogSpans, p: PropSpans)
    requires l.message.None? && l.props.Snoc?
    ensures Spans(PutLast(l, p)) == Spans(Butlast(l)) + (Opt(p.key) + Opt(p.value))
    ensures Spans(l) == Spans(Butlast(l)) + (Opt(l.props.last.key) + Opt(l.props.last.value))
  {
    AppendTakes(Butlast(l), p);
    AppendTakes(Butlast(l), l.props.last);
  }

  /** A value takes the place of the range that the property had for it, if any. */
  lemma ValueTakes(l: LogSpans, s: Span)
    requires l.message.None? && l.props.Snoc?
    ensures var first := Spans(Butlast(l)) + Opt(l.props.last.key);
            Spans(l) == first + Opt(l.props.last.value) && Spans(PutValue(l, s)) == first + [s]
  {
    var first, last := Spans(Butlast(l)), l.props.last;
    LastTakes(l, last.(value := Some(s)));
    SpansAssoc(first, Opt(last.key), Opt(last.value));
    SpansAssoc(first, Opt(last.key), [s]);
  }

  /** Text taken for a call type becomes the first key. */
  lemma RenameTakes(l: LogSpans, s: Span)
    requires CanAct(l, Rename)
    ensures Spans(SpanEffect(l, Rename, s)) == Spans(l) + [s]
  {
    var first, x := Spans(Butlast(l)), l.props.last.value;
    LastTakes(l, PropSpans(x, Some(s)));
    Whole(Opt(x));
    SpansAssoc(first, Opt(x), [s]);
  }

  /** A double key gives up the range of the key that was there. */
  lemma DoubleKeyTakes(l: LogSpans, s: Span)
    requires l.message.None? && l.props.Snoc?
    ensures Spans(l) == Spans(Butlast(l)) + (Opt(l.props.last.key) + Opt(l.props.last.value))
    ensures Spans(PutKey(l, s)) == Spans(Butlast(l)) + [s]
  {
    LastTakes(l, PropSpans(Some(s), None));
    Whole([s]);
  }

  lemma NewTakes(l: LogSpans, a: Act, s: Span)
    requires CanAct(l, a) && (a.Field? || a.CallTypeEnd? || a.KeyEnd? || a.Rename?)
    ensures Spans(SpanEffect(l, a, s)) == Spans(l) + [s]
  {
    Whole([s]);
    match a
    case Field(h) => HeaderTakes(l, h, s);
    case CallTypeEnd => AppendTakes(l, PropSpans(None, Some(s)));
    case KeyEnd => AppendTakes(l, PropSpans(Some(s), None));
    case Rename => RenameTakes(l, s);
  }

  /** Some last ranges are given up, or none, and one is taken. */
  lemma TakesOrdered(spans: seq<Span>, first: seq<Span>, rest: seq<Span>, s: Span, from: nat, lo: nat, hi: nat)
      returns (now: seq<Span>)
    requires spans == first + rest && Ordered(spans, from, lo) && lo <= s.lo <= s.hi <= hi
    ensures now == first + [s] && Ordered(now, from, hi)
  {
    OrderedSnoc(first, rest, from, lo, s, hi);
    now := first + [s];
  }

  lemma ActTakes(l: LogSpans, a: Act, s: Span) returns (first: seq<Span>, rest: seq<Span>, t: Span)
    requires CanAct(l, a) && !a.Keep? && s.lo <= s.hi && (a.DoubleKey? ==> s.lo < s.hi)
    ensures s.lo == t.lo <= t.hi <= s.hi
    ensures Spans(l) == first + rest && Spans(SpanEffect(l, a, s)) == first + [t]
  {
    if a.ValueEnd? {
      ValueTakes(l, s);
      first, rest, t := Spans(Butlast(l)) + Opt(l.props.last.key), Opt(l.props.last.value), s;
    } else if a.DoubleKey? {
      t := Span(s.lo, s.hi - 1);
      DoubleKeyTakes(l, t);
      first, rest := Spans(Butlast(l)), Opt(l.props.last.key) + Opt(l.props.last.value);
    } else {
      NewTakes(l, a, s);
      Whole(Spans(l));
      first, rest, t := Spans(l), [], s;
    }
  }

  // One step

  /** The range of the open token when the scan is at `i`. */
  function Here(p: PendingLine, i: nat): Span
    requires |p.tail| <= i
  {
    Span(i - |p.tail|, i - |p.tail| + p.width)
  }

  function NextSpans(p: PendingLine, l: LogSpans, i: nat, c: char): LogSpans
    requires |p.tail| <= i
  {
    SpanEffect(l, ActOf(p.state, c), Here(p, i))
  }

  /** The kept text ends at `i`, and the log is cut out of the text at these ranges. */
  ghost predicate Shows(text: string, p: PendingLine, l: LogSpans, i: nat) {
    && |p.tail| <= i <= |text|
    && p.tail == text[i - |p.tail|..i]
    && p.current == CutLog(text, l)
  }

  lemma TailGrows(text: string, tail: string, i: nat, w: nat)
    requires |tail| <= i && i + w <= |text| && tail == text[i - |tail|..i]
    ensures tail + text[i..i + w] == text[i - |tail|..i + w]
  {
  }

  lemma TailAfter(text: string, p: PendingLine, i: nat, w: nat, tail: string)
    requires |p.tail| <= i && 1 <= w && i + w <= |text| && p.tail == text[i - |p.tail|..i]
    requires CutFrom(tail, p, text[i..i + w])
    ensures |tail| <= |p.tail| + w && tail == text[i + w - |tail|..i + w]
  {
    TailGrows(text, p.tail, i, w);
  }

  lemma StepShows(text: string, p: PendingLine, l: LogSpans, i: nat, w: nat)
    requires Shows(text, p, l, i) && Phase(p.state, l) && 1 <= w && i + w <= |text|
    requires Step(p, text[i..i + w]).Ok?
    ensures Shows(text, Step(p, text[i..i + w]).value, NextSpans(p, l, i, text[i]), i + w)
  {
    var r := text[i..i + w];
    var q := Step(p, r).value;
    StepKeepsSuffix(p, r);
    TailAfter(text, p, i, w, q.tail);
    StepEffect(p, r);
    PhaseAllows(p.state, l, r[0]);
    TokenHere(text, p, i);
    CutEffect(text, l, ActOf(p.state, r[0]), Here(p, i));
  }

  lemma TokenHere(text: string, p: PendingLine, i: nat)
    requires |p.tail| <= i <= |text| && p.tail == text[i - |p.tail|..i]
    ensures Here(p, i).lo <= Here(p, i).hi <= |text|
    ensures p.Token() == Cut(text, Some(Here(p, i)))
  {
  }

  lemma BodyPhase(p: PendingLine, l: LogSpans, i: nat, r: string)
    requires Phase(p.state, l) && Sound(p) && |p.tail| <= i && r != "" && NeedsProperty(p.state)
    ensures Step(p, r).Ok? && Phase(Step(p, r).value.state, NextSpans(p, l, i, r[0]))
  {
    match p.state
    case VerifyCallType =>
    case Key =>
    case Value =>
    case MultiKey =>
  }

  lemma StatePhase(p: PendingLine, l: LogSpans, i: nat, r: string)
    requires Phase(p.state, l) && (p.state.MultiKey? ==> p.width > 0) && |p.tail| <= i && r != ""
    requires !IsTransition(p.state) && (NeedsProperty(p.state) ==> p.current.props != [])
    ensures Step(p, r).Ok? && Phase(Step(p, r).value.state, NextSpans(p, l, i, r[0]))
  {
    if NeedsProperty(p.state) {
      BodyPhase(p, l, i, r);
    }
  }

  lemma StepPhase(p: PendingLine, l: LogSpans, i: nat, r: string)
    requires Phase(p.state, l) && Sound(p) && |p.tail| <= i && r != ""
    ensures Step(p, r).Ok? && Phase(Step(p, r).value.state, NextSpans(p, l, i, r[0]))
  {
    if !IsTransition(p.state) {
      StatePhase(p, l, i, r);
    } else if !IsBlank(r[0]) {
      TransitionEnters(p, r);
      StatePhase(p.(state := Succ(p.state)), l, i, r);
    }
  }

  /** In a line that starts at `from`, the ranges found so far are in order and before the token. */
  predicate Placed(p: PendingLine, l: LogSpans, from: nat, i: nat) {
    Phase(p.state, l) && |p.tail| <= i && Ordered(Spans(l), from, i - |p.tail|)
  }

  /** Every step keeps the ranges in order. */
  lemma StepPlaced(p: PendingLine, l: LogSpans, from: nat, i: nat, r: string)
    requires Placed(p, l, from, i) && Sound(p) && r != ""
    ensures Step(p, r).Ok? && Placed(Step(p, r).value, NextSpans(p, l, i, r[0]), from, i + |r|)
  {
    StepPhase(p, l, i, r);
    StepKeepsSuffix(p, r);
    var lo, q := i - |p.tail|, Step(p, r).value;
    assert lo <= i + |r| - |q.tail|;
    if ActOf(p.state, r[0]).Keep? {
      OrderedLater(Spans(l), from, lo, i + |r| - |q.tail|);
    } else {
      StepCloses(p, r);
      TakenPlaced(p, l, from, i, r[0], i + |r| - |q.tail|);
    }
  }

  lemma TakenPlaced(p: PendingLine, l: LogSpans, from: nat, i: nat, c: char, hi: nat)
    requires Placed(p, l, from, i) && Sound(p) && !ActOf(p.state, c).Keep? && Here(p, i).hi <= hi
    ensures Ordered(Spans(NextSpans(p, l, i, c)), from, hi)
  {
    PhaseAllows(p.state, l, c);
    DoubleKeyState(p.state, c);
    var first, rest, t := ActTakes(l, ActOf(p.state, c), Here(p, i));
    var now := TakesOrdered(Spans(l), first, rest, t, from, i - |p.tail|, hi);
  }

  lemma DoubleKeyState(s: State, c: char)
    ensures ActOf(s, c).DoubleKey? ==> s.MultiKey?
    decreases IsTransition(s)
  {
  }

  // The end of a line

  /** `consumeLog` */
  function FinishSpans(text: string, l: LogSpans, s: Span): LogSpans {
    if l.props.Nil? || Cut(text, l.props.last.value) != "" then l.(message := Some(s)) else PutValue(l, s)
  }

  lemma FinishShows(text: string, p: PendingLine, l: LogSpans, i: nat)
    requires Shows(text, p, l, i)
    ensures CutLog(text, FinishSpans(text, l, Here(p, i))) == ConsumeLog(p.current, p.Token())
  {
    TokenHere(text, p, i);
    if l.props.Snoc? {
      CutReplaceLast(text, l, l.props.last.(value := Some(Here(p, i))));
    }
  }

  lemma FinishOrdered(text: string, p: PendingLine, l: LogSpans, from: nat, i: nat)
    requires Placed(p, l, from, i)
    ensures Ordered(Spans(FinishSpans(text, l, Here(p, i))), from, i)
  {
    var s := Here(p, i);
    if l.props.Nil? || Cut(text, l.props.last.value) != "" {
      Whole(Spans(l));
      OrderedSnoc(Spans(l), [], from, s.lo, s, i);
      Whole(HeaderSpans(l) + PropSpansOf(l.props));
    } else {
      ValueTakes(l, s);
      OrderedSnoc(Spans(Butlast(l)) + Opt(l.props.last.key), Opt(l.props.last.value), from, s.lo, s, i);
    }
  }

  // The whole text

  /** What the steps of a line did, with the token that each of them had. */
  datatype Done = Done(act: Act, token: Span)

  function SpansOf(done: seq<Done>): LogSpans {
    if done == [] then NO_SPANS
    else SpanEffect(SpansOf(done[..|done| - 1]), done[|done| - 1].act, done[|done| - 1].token)
  }

  lemma SpansOfSnoc(done: seq<Done>, d: Done)
    ensures SpansOf(done + [d]) == SpanEffect(SpansOf(done), d.act, d.token)
  {
    assert (done + [d])[..|done|] == done;
  }

  /** A line, from its first byte to its newline, what its steps did, and its last token. */
  datatype Line = Line(lo: nat, hi: nat, done: seq<Done>, last: Span)

  function LineSpans(text: string, line: Line): LogSpans {
    FinishSpans(text, SpansOf(line.done), line.last)
  }

  /** `line` is a line of the text, and the ranges of its log are inside it and in order. */
  predicate LineOk(text: string, line: Line) {
    && line.lo <= line.hi < |text| && text[line.hi] == '\n' && '\n' !in text[line.lo..line.hi]
    && (line.lo > 0 ==> text[line.lo - 1] == '\n')
    && Ordered(Spans(LineSpans(text, line)), line.lo, line.hi)
  }

  /** One line after the other, the first from `from` on. */
  predicate LinesOk(text: string, lines: seq<Line>, from: nat) {
    && (forall k | 0 <= k < |lines| :: LineOk(text, lines[k]))
    && (lines != [] ==> lines[0].lo == from)
    && (forall k | 0 < k < |lines| :: lines[k].lo == lines[k - 1].hi + 1)
  }

  function CutLines(text: string, lines: seq<Line>): seq<Record> {
    seq(|lines|, k requires 0 <= k < |lines| => CutLog(text, LineSpans(text, lines[k])))
  }

  predicate InLine(text: string, from: nat, i: nat) {
    from <= i <= |text| && '\n' !in text[from..i] && (from > 0 ==> text[from - 1] == '\n')
  }

  lemma InLineStill(text: string, from: nat, i: nat)
    requires InLine(text, from, i) && i < |text| && text[i] != '\n'
    ensures InLine(text, from, i + RuneWidth(text[i..]))
  {
    var w := RuneWidth(text[i..]);
    assert forall k | 0 <= k < w :: text[i..][k] == text[i + k];
    assert text[from..i + w] == text[from..i] + text[i..i + w];
  }

  lemma ConsLinesOk(text: string, line: Line, lines: seq<Line>)
    requires LineOk(text, line) && LinesOk(text, lines, line.hi + 1)
    ensures LinesOk(text, [line] + lines, line.lo)
  {
    var all := [line] + lines;
    forall k | 0 <= k < |all| ensures LineOk(text, all[k]) {
      assert all[k] == if k == 0 then line else lines[k - 1];
    }
    forall k | 0 < k < |all| ensures all[k].lo == all[k - 1].hi + 1 {
      assert all[k] == lines[k - 1];
      if k > 1 {
        assert all[k - 1] == lines[k - 2];
      }
    }
  }

  function DoneAt(text: string, p: PendingLine, i: nat): Done
    requires |p.tail| <= i < |text|
  {
    Done(ActOf(p.state, text[i]), Here(p, i))
  }

  /** The scan of `text` from `i` on: the lines it finishes. The line in which it is now began at
      `from`, and `done` is what its steps did. */
  function LinesFrom(text: string, p: PendingLine, done: seq<Done>, from: nat, i: nat): seq<Line>
    requires |p.tail| <= i <= |text|
    decreases |text| - i
  {
    if i == |text| then
      []
    else if text[i] == '\n' then
      [Line(from, i, done, Here(p, i))] + LinesFrom(text, FRESH, [], i + 1, i + 1)
    else
      var w := RuneWidth(text[i..]);
      var o := Step(p, text[i..i + w]);
      if o.Panic? || |o.value.tail| > i + w then [] else
      LinesFrom(text, o.value, done + [DoneAt(text, p, i)], from, i + w)
  }

  /** Where the scan is: `LinesFrom` of it are the lines to come. */
  datatype Reading = Reading(p: PendingLine, done: seq<Done>, from: nat, i: nat) {
    predicate Fits(text: string) {
      |p.tail| <= i <= |text|
    }

    function Lines(text: string): seq<Line>
      requires Fits(text)
    {
      LinesFrom(text, p, done, from, i)
    }

    /** The scan of the rest. */
    function Logs(text: string): Outcome<Scanned>
      requires i <= |text|
    {
      Scan(p, text[i..])
    }
  }

  function StartAt(i: nat): Reading {
    Reading(FRESH, [], i, i)
  }

  function LinesOf(text: string): seq<Line> {
    StartAt(0).Lines(text)
  }

  lemma LinesAfterLine(text: string, a: Reading)
    requires a.Fits(text) && a.i < |text| && text[a.i] == '\n'
    ensures a.Lines(text) == [Line(a.from, a.i, a.done, Here(a.p, a.i))] + StartAt(a.i + 1).Lines(text)
  {
  }

  /** `b` is where the scan is after the rune at `a`. */
  ghost predicate Follows(text: string, a: Reading, b: Reading) {
    && a.Fits(text) && a.i < |text| && text[a.i] != '\n'
    && var r := text[a.i..a.i + RuneWidth(text[a.i..])];
    && Step(a.p, r) == Ok(b.p)
    && b.done == a.done + [DoneAt(text, a.p, a.i)]
    && b.from == a.from
    && b.i == a.i + |r|
    && b.Fits(text)
  }

  lemma SameLines(text: string, a: Reading, b: Reading)
    requires Follows(text, a, b)
    ensures a.Lines(text) == b.Lines(text)
  {
  }

  lemma SameLogs(text: string, a: Reading, b: Reading)
    requires Follows(text, a, b)
    ensures a.Logs(text) == b.Logs(text)
  {
    var w := RuneWidth(text[a.i..]);
    assert text[a.i..][..w] == text[a.i..a.i + w] && text[a.i..][w..] == text[a.i + w..];
  }

  lemma HasNext(text: string, a: Reading) returns (b: Reading)
    requires Sound(a.p) && a.Fits(text) && a.i < |text| && text[a.i] != '\n'
    ensures Follows(text, a, b)
  {
    var w := RuneWidth(text[a.i..]);
    var r := text[a.i..a.i + w];
    StepSafe(a.p, r);
    StepKeepsSuffix(a.p, r);
    b := Reading(Step(a.p, r).value, a.done + [DoneAt(text, a.p, a.i)], a.from, a.i + w);
  }

  ghost predicate InOrder(text: string, a: Reading) {
    Sound(a.p) && InLine(text, a.from, a.i) && Placed(a.p, SpansOf(a.done), a.from, a.i)
  }

  lemma PlacedNext(p: PendingLine, l: LogSpans, from: nat, i: nat, r: string, q: PendingLine, l': LogSpans)
    requires Placed(p, l, from, i) && Sound(p) && r != "" && Step(p, r) == Ok(q) && l' == NextSpans(p, l, i, r[0])
    ensures Placed(q, l', from, i + |r|) && Sound(q)
  {
    StepSafe(p, r);
    StepPlaced(p, l, from, i, r);
  }

  lemma FollowsInOrder(text: string, a: Reading, b: Reading)
    requires InOrder(text, a) && Follows(text, a, b)
    ensures InOrder(text, b)
  {
    InLineStill(text, a.from, a.i);
    SpansOfSnoc(a.done, DoneAt(text, a.p, a.i));
    PlacedNext(a.p, SpansOf(a.done), a.from, a.i, text[a.i..b.i], b.p, SpansOf(b.done));
  }

  /** The rune belongs to the line, and the scan goes on after it. */
  lemma RuneInOrder(text: string, a: Reading) returns (b: Reading)
    requires InOrder(text, a) && a.i < |text| && text[a.i] != '\n'
    ensures a.i < b.i && b.from == a.from && InOrder(text, b) && a.Lines(text) == b.Lines(text)
  {
    b := HasNext(text, a);
    FollowsInOrder(text, a, b);
    SameLines(text, a, b);
  }

  lemma StartInOrder(text: string, i: nat)
    requires i <= |text| && (i > 0 ==> text[i - 1] == '\n')
    ensures InOrder(text, StartAt(i))
  {
  }

  /** The line ends. */
  lemma LineInOrder(text: string, a: Reading, more: seq<Line>)
    requires InOrder(text, a) && a.i < |text| && text[a.i] == '\n' && LinesOk(text, more, a.i + 1)
    ensures LinesOk(text, [Line(a.from, a.i, a.done, Here(a.p, a.i))] + more, a.from)
  {
    FinishOrdered(text, a.p, SpansOf(a.done), a.from, a.i);
    ConsLinesOk(text, Line(a.from, a.i, a.done, Here(a.p, a.i)), more);
  }

  lemma {:induction false} LinesInOrder(text: string, a: Reading) returns (lines: seq<Line>)
    requires InOrder(text, a)
    ensures lines == a.Lines(text) && LinesOk(text, lines, a.from)
    decreases |text| - a.i, 1
  {
    if a.i == |text| {
      lines := [];
    } else if text[a.i] == '\n' {
      StartInOrder(text, a.i + 1);
      var more := LinesInOrder(text, StartAt(a.i + 1));
      LineInOrder(text, a, more);
      LinesAfterLine(text, a);
      lines := [Line(a.from, a.i, a.done, Here(a.p, a.i))] + more;
    } else {
      lines := LinesAfterRune(text, a);
    }
  }

  lemma {:induction false} LinesAfterRune(text: string, a: Reading) returns (lines: seq<Line>)
    requires InOrder(text, a) && a.i < |text| && text[a.i] != '\n'
    ensures lines == a.Lines(text) && LinesOk(text, lines, a.from)
    decreases |text| - a.i, 0
  {
    var b := RuneInOrder(text, a);
    lines := LinesInOrder(text, b);
  }

  /** The logs of a scan are cut out of the text at the ranges of these lines. */
  ghost predicate AreLogs(o: Outcome<Scanned>, text: string, lines: seq<Line>) {
    o.Ok? && o.value.logs == CutLines(text, lines)
  }

  lemma ScanLine(text: string, a: Reading, line: Line, lines: seq<Line>)
    requires a.i < |text| && text[a.i] == '\n'
    requires CutLog(text, LineSpans(text, line)) == ConsumeLog(a.p.current, a.p.Token())
    requires AreLogs(StartAt(a.i + 1).Logs(text), text, lines)
    ensures AreLogs(a.Logs(text), text, [line] + lines)
  {
    assert text[a.i..][1..] == text[a.i + 1..];
    assert CutLines(text, [line] + lines) == [CutLog(text, LineSpans(text, line))] + CutLines(text, lines);
  }

  ghost predicate IsCut(text: string, a: Reading) {
    Sound(a.p) && Shows(text, a.p, SpansOf(a.done), a.i) && Phase(a.p.state, SpansOf(a.done))
  }

  lemma ShowsNext(text: string, p: PendingLine, l: LogSpans, i: nat, w: nat, q: PendingLine, l': LogSpans)
    requires Shows(text, p, l, i) && Phase(p.state, l) && Sound(p) && 1 <= w && i + w <= |text|
    requires Step(p, text[i..i + w]) == Ok(q) && l' == NextSpans(p, l, i, text[i])
    ensures Shows(text, q, l', i + w) && Phase(q.state, l') && Sound(q)
  {
    StepSafe(p, text[i..i + w]);
    StepPhase(p, l, i, text[i..i + w]);
    StepShows(text, p, l, i, w);
  }

  lemma FollowsIsCut(text: string, a: Reading, b: Reading)
    requires IsCut(text, a) && Follows(text, a, b)
    ensures IsCut(text, b)
  {
    SpansOfSnoc(a.done, DoneAt(text, a.p, a.i));
    ShowsNext(text, a.p, SpansOf(a.done), a.i, RuneWidth(text[a.i..]), b.p, SpansOf(b.done));
  }

  lemma RuneIsCut(text: string, a: Reading) returns (b: Reading)
    requires IsCut(text, a) && a.i < |text| && text[a.i] != '\n'
    ensures a.i < b.i && IsCut(text, b) && a.Lines(text) == b.Lines(text) && a.Logs(text) == b.Logs(text)
  {
    b := HasNext(text, a);
    FollowsIsCut(text, a, b);
    SameLines(text, a, b);
    SameLogs(text, a, b);
  }

  lemma {:induction false} LinesAreLogs(text: string, a: Reading) returns (lines: seq<Line>)
    requires IsCut(text, a)
    ensures lines == a.Lines(text) && AreLogs(a.Logs(text), text, lines)
    decreases |text| - a.i
  {
    if a.i == |text| {
      assert text[a.i..] == "";
      lines := [];
    } else if text[a.i] == '\n' {
      var line := Line(a.from, a.i, a.done, Here(a.p, a.i));
      FinishShows(text, a.p, SpansOf(a.done), a.i);
      var more := LinesAreLogs(text, StartAt(a.i + 1));
      ScanLine(text, a, line, more);
      LinesAfterLine(text, a);
      lines := [line] + more;
    } else {
      var b := RuneIsCut(text, a);
      lines := LinesAreLogs(text, b);
    }
  }

  /** For every text, of any bytes: the logs are what is cut out at the ranges that the parser took,
      and the ranges of each log lie inside its own line, left to right and without overlap. */
  lemma FieldsInOrder(text: string)
    ensures ParsedLogs(text) == CutLines(text, LinesOf(text))
    ensures LinesOk(text, LinesOf(text), 0)
  {
    assert text[0..] == text;
    StartInOrder(text, 0);
    var lines := LinesAreLogs(text, StartAt(0));
    lines := LinesInOrder(text, StartAt(0));
  }
}
