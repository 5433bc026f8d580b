/** The parser of logging/parse.go with its cursors, proved against ParserSpec. */
module ParserObject {
  import opened Results
  import opened Records
  import opened Text
  import opened ParserSpec
  import opened Cursors

  class Parser {
    var state: State
    var start: nat
    var end: nat
    var raw: string
    var current: Record

    /** `i` is the position the scan has reached. */
    ghost predicate Valid(i: nat)
      reads this
    {
      CursorsOk(raw, start, end, i)
    }

    ghost function View(i: nat): PendingLine
      requires Valid(i)
      reads this
    {
      At(state, raw, start, end, i, current)
    }

    /** What is left between two calls of `Parse`. */
    ghost function Kept(): PendingLine
      reads this
    {
      Pending(state, raw, 0, current)
    }

    /** The rune at `i` occupies `w` bytes, and `r` is the first of them. */
    ghost predicate AtRune(i: nat, w: nat, r: char)
      reads this
    {
      Valid(i) && 1 <= w && i + w <= |raw| && raw[i] == r
    }

    constructor ()
      ensures Kept() == FRESH && start == end == 0
    {
      state, start, end, raw, current := Date, 0, 0, "", EMPTY_RECORD;
    }

    /** Keeps the buffered text and the half-built log: not a return to a new parser. */
    method Reset()
      modifies `state, `start, `end
      ensures start == end == 0 && Kept() == old(Kept()).(state := Date)
    {
      state := Date;
      start, end := 0, 0;
    }

    method HandleNextKey(r: char, ghost i: nat, ghost w: nat)
      requires AtRune(i, w, r)
      modifies `state, `start, `end, `current
      ensures Valid(i + w) && View(i + w) == KeyStep(old(View(i)), raw[i..i + w])
    {
      if r == ' ' {
        if start == end {
          Skipped(state, raw, start, end, i, w, current);
          start := start + 1;
          end := end + 1;
        } else {
          Passed(state, raw, start, end, i, w, current);
        }
      } else if r == ':' {
        var log := current.(props := current.props + [Property(raw[start..end], "")]);
        Closed(state, raw, start, end, i, w, current, Value, log);
        current := log;
        state := Value;
        end := end + 1;
        start := end;
      } else {
        Extended(state, raw, start, end, i, w, current);
        end := end + 1;
      }
    }

    method HandleNextMultiKey(r: char, ghost i: nat, ghost w: nat) returns (ok: bool)
      requires AtRune(i, w, r)
      modifies `state, `start, `end, `current
      ensures ok == MultiKeyStep(old(View(i)), raw[i..i + w]).Ok?
      ensures ok ==> Valid(i + w) && View(i + w) == MultiKeyStep(old(View(i)), raw[i..i + w]).value
    {
      if r == ' ' {
        if current.props == [] || end - 1 < start {
          return false;
        }
        var log := current.(props := current.props[|current.props| - 1 := Property(raw[start..end - 1], "")]);
        Closed(state, raw, start, end, i, w, current, Value, log);
        current := log;
        end := end + 1;
        start := end;
        state := Value;
      } else {
        Extended(state, raw, start, end, i, w, current);
        state := Value;
        end := end + 1;
      }
      return true;
    }

    method ConsumeCurrent()
      requires start <= end <= |raw|
      modifies `current
      ensures current == ParserSpec.ConsumeCurrent(old(current), raw[start..end])
    {
      var i := |current.props| - 1;
      if i < 0 {
        return;
      }
      current := current.(props := current.props[i := current.props[i].(value := raw[start..end])]);
    }

    method ConsumeLog()
      requires start <= end <= |raw|
      modifies `current
      ensures current == ParserSpec.ConsumeLog(old(current), raw[start..end])
    {
      var i := |current.props| - 1;
      if i < 0 || current.props[i].value != "" {
        current := current.(message := raw[start..end]);
        return;
      }
      current := current.(props := current.props[i := current.props[i].(value := raw[start..end])]);
    }

    method HandleNextValue(r: char, ghost i: nat, ghost w: nat)
      requires AtRune(i, w, r)
      modifies `state, `start, `end, `current
      ensures Valid(i + w) && View(i + w) == ValueStep(old(View(i)), raw[i..i + w])
    {
      if r == ',' {
        Closed(state, raw, start, end, i, w, current, Key, ParserSpec.ConsumeCurrent(current, raw[start..end]));
        ConsumeCurrent();
        state := Key;
        end := end + 1;
        start := end;
      } else if r == ':' {
        Extended(state, raw, start, end, i, w, current);
        state := MultiKey;
        end := end + 1;
      } else if r == ' ' {
        if start == end {
          Skipped(state, raw, start, end, i, w, current);
          start := start + 1;
        } else {
          Extended(state, raw, start, end, i, w, current);
        }
        end := end + 1;
      } else {
        Extended(state, raw, start, end, i, w, current);
        end := end + 1;
      }
    }

    method HandleTransition(r: char, ghost i: nat, ghost w: nat) returns (again: bool)
      requires AtRune(i, w, r)
      modifies `state, `start, `end
      ensures again == !IsBlank(r)
      ensures again ==> Valid(i) && View(i) == old(View(i)).(state := Succ(old(state)))
      ensures !again ==> Valid(i + w) && View(i + w) == Skip(old(View(i)), raw[i..i + w])
    {
      if r == '\t' || r == ' ' {
        Skipped(state, raw, start, end, i, w, current);
        start := start + 1;
        end := end + 1;
        return false;
      }
      state := Succ(state);
      return true;
    }

    method HandleNextDate(h: Header, r: char, ghost i: nat, ghost w: nat)
      requires AtRune(i, w, r)
      modifies `state, `start, `end, `current
      ensures Valid(i + w) && View(i + w) == DateStep(old(View(i)), h, raw[i..i + w])
    {
      if r == '[' {
        Skipped(state, raw, start, end, i, w, current);
        start := start + 1;
        end := end + 1;
      } else if IsDateChar(r) {
        Extended(state, raw, start, end, i, w, current);
        end := end + 1;
      } else {
        var log := SetHeader(current, h, raw[start..end]);
        Closed(state, raw, start, end, i, w, current, Succ(state), log);
        current := log;
        end := end + 1;
        start := end;
        state := Succ(state);
      }
    }

    method HandleNextHeader(h: Header, r: char, ghost i: nat, ghost w: nat)
      requires AtRune(i, w, r)
      modifies `state, `start, `end, `current
      ensures Valid(i + w) && View(i + w) == HeaderStep(old(View(i)), h, raw[i..i + w])
    {
      ghost var p, rune := View(i), raw[i..i + w];
      assert rune[0] == r;
      if r == '[' {
        Skipped(state, raw, start, end, i, w, current);
        assert HeaderStep(p, h, rune) == Skip(p, rune);
        start := start + 1;
        end := end + 1;
      } else if r == '\t' || r == ' ' || r == ']' {
        var log := SetHeader(current, h, raw[start..end]);
        Closed(state, raw, start, end, i, w, current, Succ(state), log);
        assert HeaderStep(p, h, rune) == Close(p, rune, Succ(state), log);
        current := log;
        end := end + 1;
        start := end;
        state := Succ(state);
      } else {
        Extended(state, raw, start, end, i, w, current);
        assert HeaderStep(p, h, rune) == Extend(p, rune);
        end := end + 1;
      }
    }

    method HandleNextThreadBracket(r: char, ghost i: nat, ghost w: nat)
      requires AtRune(i, w, r)
      modifies `state, `start, `end, `current
      ensures Valid(i + w) && View(i + w) == ThreadBracketStep(old(View(i)), raw[i..i + w])
    {
      if r == ']' || r == '\t' {
        var log := current.(thread := raw[start..end]);
        Closed(state, raw, start, end, i, w, current, TransitionClass, log);
        current := log;
        end := end + 1;
        start := end;
        state := TransitionClass;
      } else {
        Extended(state, raw, start, end, i, w, current);
        end := end + 1;
      }
    }

    method HandleNextThread(r: char, ghost i: nat, ghost w: nat)
      requires AtRune(i, w, r)
      modifies `state, `start, `end, `current
      ensures Valid(i + w) && View(i + w) == ThreadStep(old(View(i)), raw[i..i + w])
    {
      if r == '[' {
        Skipped(state, raw, start, end, i, w, current);
        state := ThreadBracket;
        start := start + 1;
        end := end + 1;
      } else {
        state := ThreadNoBracket;
        HandleNextHeader(HThread, r, i, w);
      }
    }

    method HandleNextCallType(r: char, ghost i: nat, ghost w: nat)
      requires AtRune(i, w, r)
      modifies `state, `start, `end, `current
      ensures Valid(i + w) && View(i + w) == CallTypeStep(old(View(i)), raw[i..i + w])
    {
      if r == ':' {
        Closed(state, raw, start, end, i, w, current, Succ(state),
               current.(props := current.props + [Property(KEY_CALL_TYPE, raw[start..end])]));
        current := current.(props := current.props + [Property(KEY_CALL_TYPE, "")]);
        ConsumeCurrent();
        end := end + 1;
        start := end;
        state := Succ(state);
      } else {
        Extended(state, raw, start, end, i, w, current);
        end := end + 1;
      }
    }

    method VerifyCallType(r: char, ghost i: nat, ghost w: nat) returns (ok: bool)
      requires AtRune(i, w, r)
      modifies `state, `start, `end, `current
      ensures ok == VerifyCallTypeStep(old(View(i)), raw[i..i + w]).Ok?
      ensures ok ==> Valid(i + w) && View(i + w) == VerifyCallTypeStep(old(View(i)), raw[i..i + w]).value
    {
      if r == ',' {
        if current.props == [] {
          return false;
        }
        current := current.(props := current.props[0 := current.props[0].(key := current.props[0].value)]);
        HandleNextValue(r, i, w);
      } else {
        HandleNextKey(r, i, w);
      }
      return true;
    }

    method Next(r: char, ghost i: nat, ghost w: nat) returns (ok: bool)
      requires AtRune(i, w, r)
      modifies `state, `start, `end, `current
      ensures ok == Step(old(View(i)), raw[i..i + w]).Ok?
      ensures ok ==> Valid(i + w) && View(i + w) == Step(old(View(i)), raw[i..i + w]).value
      decreases IsTransition(state)
    {
      ok := true;
      match state {
        case Date => HandleNextDate(HDate, r, i, w);
        case Time => HandleNextDate(HTime, r, i, w);
        case Level => HandleNextHeader(HLevel, r, i, w);
        case Thread => HandleNextThread(r, i, w);
        case ThreadBracket => HandleNextThreadBracket(r, i, w);
        case ThreadNoBracket => HandleNextHeader(HThread, r, i, w);
        case Class => HandleNextHeader(HClass, r, i, w);
        case CallType => HandleNextCallType(r, i, w);
        case VerifyCallType => ok := VerifyCallType(r, i, w);
        case Key => HandleNextKey(r, i, w);
        case Value => HandleNextValue(r, i, w);
        case MultiKey => ok := HandleNextMultiKey(r, i, w);
        case Error => Passed(state, raw, start, end, i, w, current);
        case _ =>
          var again := HandleTransition(r, i, w);
          if again {
            ok := Next(r, i, w);
          }
      }
    }

    /** The newline case of the loop of `Parse`: the line is over. */
    method FinishLine(i: nat) returns (log: Record)
      requires Valid(i) && i < |raw| && raw[i] == '\n'
      modifies `state, `start, `end, `current
      ensures Valid(i + 1) && View(i + 1) == FRESH
      ensures Scan(old(View(i)), raw[i..]) == Prepend([log], Scan(FRESH, raw[i + 1..]))
    {
      assert raw[start..end] == View(i).Token();
      assert raw[i..][1..] == raw[i + 1..];
      ConsumeLog();
      start := i + 1;
      end := start;
      state := Date;
      log := current;
      current := EMPTY_RECORD;
    }

    /** The other case: the rune at `i` is handed to `next`. */
    method ScanRune(i: nat) returns (ok: bool, w: nat)
      requires Valid(i) && i < |raw| && raw[i] != '\n'
      modifies `state, `start, `end, `current
      ensures 1 <= w <= |raw| - i
      ensures !ok ==> Scan(old(View(i)), raw[i..]).Panic?
      ensures ok ==> Valid(i + w) && Scan(old(View(i)), raw[i..]) == Scan(View(i + w), raw[i + w..])
    {
      w := RuneWidth(raw[i..]);
      assert raw[i..][..w] == raw[i..i + w] && raw[i..][w..] == raw[i + w..];
      ok := Next(raw[i], i, w);
    }

    /** One turn of the loop of `Parse`: the logs it appends and the bytes it reads. */
    method ScanOne(i: nat) returns (ok: bool, w: nat, done: seq<Record>)
      requires Valid(i) && i < |raw|
      modifies `state, `start, `end, `current
      ensures !ok ==> Scan(old(View(i)), raw[i..]).Panic?
      ensures ok ==> 1 <= w && i + w <= |raw| && Valid(i + w)
                     && Scan(old(View(i)), raw[i..]) == Prepend(done, Scan(View(i + w), raw[i + w..]))
    {
      if raw[i] == '\n' {
        var log := FinishLine(i);
        ok, w, done := true, 1, [log];
      } else {
        done := [];
        ok, w := ScanRune(i);
        if ok {
          PrependNothing(Scan(View(i + w), raw[i + w..]));
        }
      }
    }

    /** The loop of `Parse`, from the first byte of the buffer. */
    method ScanBuffer(logs: seq<Record>) returns (ok: bool, out: seq<Record>)
      requires start == end == 0
      modifies `state, `start, `end, `current
      ensures ok == Scan(old(Pending(state, "", 0, current)), raw).Ok?
      ensures ok ==>
                var scanned := Scan(old(Pending(state, "", 0, current)), raw).value;
                out == logs + scanned.logs && Valid(|raw|) && View(|raw|) == scanned.pending
    {
      assert raw[0..0] == "" && raw[0..] == raw;
      ghost var target := Prepend(logs, Scan(View(0), raw));
      out := logs;
      var i := 0;
      while i < |raw|
        invariant Valid(i)
        invariant target == Prepend(out, Scan(View(i), raw[i..]))
      {
        var w, done;
        ok, w, done := ScanOne(i);
        if !ok {
          return;
        }
        PrependTwice(out, done, Scan(View(i + w), raw[i + w..]));
        out := out + done;
        i := i + w;
      }
      assert raw[i..] == "";
      ScanEnd(out, View(i));
      ok := true;
    }

    /** Appends the logs that the chunk completes. When a step panics, `ok` is false. */
    method Parse(chunk: string, logs: seq<Record>) returns (ok: bool, out: seq<Record>)
      requires start == end == 0
      modifies this
      ensures ok == Feed(old(Kept()), chunk).Ok?
      ensures ok ==>
                var scanned := Feed(old(Kept()), chunk).value;
                && start == end == 0
                && out == logs + scanned.logs
                && Kept() == scanned.pending.(width := 0)
    {
      raw := raw + chunk;
      ok, out := ScanBuffer(logs);
      if ok {
        raw := raw[start..];
        start, end := 0, 0;
      }
    }
  }

  /** `Parse` of a whole text by a new parser. */
  method Parse(raw: string) returns (ok: bool, logs: seq<Record>)
    ensures ok == Scan(FRESH, raw).Ok?
    ensures ok ==> logs == Scan(FRESH, raw).value.logs
  {
    var p := new Parser();
    assert "" + raw == raw;
    ok, logs := p.Parse(raw, []);
  }
}
