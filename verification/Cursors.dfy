/** The cursors of the parser: how moving them looks to the machine without cursors. */
module Cursors {
  import opened Records
  import opened ParserSpec

  /** The scan is at `i`, and the open token is between `start` and `end`. */
  predicate CursorsOk(text: string, start: nat, end: nat, i: nat) {
    start <= end <= i <= |text|
  }

  function At(state: State, text: string, start: nat, end: nat, i: nat, log: Record): PendingLine
    requires CursorsOk(text, start, end, i)
  {
    Pending(state, text[start..i], end - start, log)
  }

  lemma TailGrows(text: string, start: nat, i: nat, w: nat)
    requires start <= i && i + w <= |text|
    ensures text[start..i] + text[i..i + w] == text[start..i + w]
  {
  }

  // The rune at `i` is `w` bytes long

  lemma Extended(state: State, text: string, start: nat, end: nat, i: nat, w: nat, log: Record)
    requires CursorsOk(text, start, end, i) && 1 <= w && i + w <= |text|
    ensures text[i..i + w][0] == text[i]
    ensures Extend(At(state, text, start, end, i, log), text[i..i + w]) == At(state, text, start, end + 1, i + w, log)
  {
    TailGrows(text, start, i, w);
  }

  lemma Passed(state: State, text: string, start: nat, end: nat, i: nat, w: nat, log: Record)
    requires CursorsOk(text, start, end, i) && 1 <= w && i + w <= |text|
    ensures text[i..i + w][0] == text[i]
    ensures var p := At(state, text, start, end, i, log);
            p.(tail := p.tail + text[i..i + w]) == At(state, text, start, end, i + w, log)
  {
    TailGrows(text, start, i, w);
  }

  lemma Skipped(state: State, text: string, start: nat, end: nat, i: nat, w: nat, log: Record)
    requires CursorsOk(text, start, end, i) && 1 <= w && i + w <= |text|
    ensures text[i..i + w][0] == text[i]
    ensures Skip(At(state, text, start, end, i, log), text[i..i + w]) == At(state, text, start + 1, end + 1, i + w, log)
  {
    TailGrows(text, start, i, w);
  }

  lemma Closed(state: State, text: string, start: nat, end: nat, i: nat, w: nat, log: Record, next: State, to: Record)
    requires CursorsOk(text, start, end, i) && 1 <= w && i + w <= |text|
    ensures text[i..i + w][0] == text[i]
    ensures var p := At(state, text, start, end, i, log);
            && Close(p, text[i..i + w], next, to) == At(next, text, end + 1, end + 1, i + w, to)
            && p.Token() == text[start..end]
            && (start < end ==> p.tail[..p.width - 1] == text[start..end - 1])
  {
    TailGrows(text, start, i, w);
    assert text[start..i + w][end - start + 1..] == text[end + 1..i + w];
  }
}
