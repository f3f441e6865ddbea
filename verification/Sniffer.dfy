/**
 The provider-error sniffer: an incremental line parser fed by arbitrary writes. Its state is
 described by the whole stream alone, so the way the stream was cut into writes cannot matter.
 The regular expressions and the trimming are parameters; nothing is assumed about them.
 */
module Sniffer {
  import opened Collections

  const MAX_LINES: nat := 8

  datatype Rules = Rules(
    trim: string -> string,
    header: string -> bool,
    detail: string -> bool,
    terminal: string -> bool)

  predicate Reports(rules: Rules, line: string) {
    line != "" && (rules.header(line) || rules.detail(line))
  }

  // ---- Lines of a stream ----

  /** The index of the first newline, or the length when there is none. */
  function FirstNewline(s: string): (i: nat)
    ensures i <= |s|
    ensures forall k | 0 <= k < i :: s[k] != '\n'
    ensures i < |s| ==> s[i] == '\n'
  {
    if s == "" || s[0] == '\n' then 0 else 1 + FirstNewline(s[1..])
  }

  /** The index of the last newline, or -1. */
  function LastNewline(s: string): (i: int)
    ensures -1 <= i < |s|
    ensures forall k | i < k < |s| :: s[k] != '\n'
    ensures i >= 0 ==> s[i] == '\n'
  {
    if s == "" then -1 else if s[|s| - 1] == '\n' then |s| - 1 else LastNewline(s[..|s| - 1])
  }

  /** The pieces between newlines, the last one included. */
  function Split(s: string): seq<string>
    decreases |s|
  {
    var i := FirstNewline(s);
    if i == |s| then [s] else [s[..i]] + Split(s[i + 1..])
  }

  /** The lines of a stream that a newline has completed. */
  function CompleteLines(stream: string): seq<string>
    decreases |stream|
  {
    var i := FirstNewline(stream);
    if i == |stream| then [] else [stream[..i]] + CompleteLines(stream[i + 1..])
  }

  /** The unfinished last line of a stream. */
  function Unfinished(stream: string): string
    decreases |stream|
  {
    var i := FirstNewline(stream);
    if i == |stream| then stream else Unfinished(stream[i + 1..])
  }

  lemma {:induction false} NewlineInside(s: string)
    requires '\n' in s
    ensures FirstNewline(s) < |s|
  {
    if s[0] != '\n' {
      NewlineInside(s[1..]);
    }
  }

  lemma CutAt(s: string, nl: nat)
    requires nl < |s| && s[nl] == '\n'
    ensures s == s[..nl] + "\n" + s[nl + 1..]
  {
  }

  lemma {:induction false} FirstNewlineOf(a: string, b: string)
    requires '\n' !in a
    ensures FirstNewline(a + b) == |a| + FirstNewline(b)
  {
    if a == "" {
      assert a + b == b;
    } else {
      assert (a + b)[1..] == a[1..] + b;
      FirstNewlineOf(a[1..], b);
    }
  }

  /** The first line of a stream, taken off. */
  lemma OneLine(head: string, rest: string)
    requires '\n' !in head
    ensures CompleteLines(head + "\n" + rest) == [head] + CompleteLines(rest)
    ensures Unfinished(head + "\n" + rest) == Unfinished(rest)
    ensures Split(head + "\n" + rest) == [head] + Split(rest)
  {
    var s := head + "\n" + rest;
    FirstNewlineOf(head, "\n" + rest);
    assert head + ("\n" + rest) == s && ("\n" + rest)[0] == '\n';
    assert s[..|head|] == head && s[|head| + 1..] == rest;
  }

  lemma NoLine(s: string)
    requires '\n' !in s
    ensures CompleteLines(s) == [] && Unfinished(s) == s && Split(s) == [s]
  {
    FirstNewlineOf(s, "");
    assert s + "" == s;
  }

  /** A stream with a newline is its first line, the newline and the rest. */
  lemma FirstLine(s: string) returns (head: string, rest: string)
    requires '\n' in s
    ensures '\n' !in head && s == head + "\n" + rest
  {
    var i := FirstNewline(s);
    NewlineInside(s);
    head, rest := s[..i], s[i + 1..];
  }

  /** Cutting a stream anywhere: the unfinished line is carried over to what follows. */
  lemma {:induction false} StreamSplits(a: string, b: string)
    ensures CompleteLines(a + b) == CompleteLines(a) + CompleteLines(Unfinished(a) + b)
    ensures Unfinished(a + b) == Unfinished(Unfinished(a) + b)
    decreases |a|
  {
    if '\n' !in a {
      NoLine(a);
    } else {
      var head, rest := FirstLine(a);
      OneLine(head, rest);
      OneLine(head, rest + b);
      Reassociate(head + "\n", rest, b);
      StreamSplits(rest, b);
      Reassociate([head], CompleteLines(rest), CompleteLines(Unfinished(rest) + b));
    }
  }

  /** Splitting up to the last newline gives exactly the completed lines. */
  lemma {:induction false} SplitAtLast(init: string, last: string)
    requires '\n' !in last
    ensures CompleteLines(init + "\n" + last) == Split(init) && Unfinished(init + "\n" + last) == last
    decreases |init|
  {
    if '\n' !in init {
      OneLine(init, last);
      NoLine(init);
      NoLine(last);
    } else {
      var head, rest := FirstLine(init);
      OneLine(head, rest);
      var more := rest + "\n" + last;
      OneLine(head, more);
      Reassociate(head + "\n", rest + "\n", last);
      Reassociate(head + "\n", rest, "\n");
      SplitAtLast(rest, last);
    }
  }

  // ---- What the sniffer keeps of the lines ----

  /** The trimmed lines that look like provider errors, in order, with repetitions. */
  function Errors(rules: Rules, lines: seq<string>): seq<string> {
    if lines == [] then []
    else
      var before, line := lines[..|lines| - 1], rules.trim(lines[|lines| - 1]);
      Errors(rules, before) + (if Reports(rules, line) then [line] else [])
  }

  /** The first occurrences, in order. */
  function FirstOccurrences(errors: seq<string>): seq<string> {
    if errors == [] then []
    else
      var before, line := errors[..|errors| - 1], errors[|errors| - 1];
      if line in before then FirstOccurrences(before) else FirstOccurrences(before) + [line]
  }

  function LastOf(errors: seq<string>): seq<string> {
    if |errors| > 8 then errors[|errors| - 8..] else errors
  }

  ghost predicate SomeTerminal(rules: Rules, errors: seq<string>) {
    exists i | 0 <= i < |errors| :: rules.terminal(errors[i])
  }

  /** The sniffer's fields after reading `stream`: the last eight distinct errors, everything seen,
      whether any error was terminal, and the unfinished line. */
  ghost predicate Describes(rules: Rules, stream: string, remains: string, lines: seq<string>, seen: set<string>, terminal: bool) {
    var errors := Errors(rules, CompleteLines(stream));
    && remains == Unfinished(stream)
    && Keeps(rules, errors, lines, seen, terminal)
  }

  ghost predicate Keeps(rules: Rules, errors: seq<string>, lines: seq<string>, seen: set<string>, terminal: bool) {
    && lines == LastOf(FirstOccurrences(errors))
    && seen == (set line | line in errors)
    && terminal == SomeTerminal(rules, errors)
  }

  lemma KeepsOneMore(rules: Rules, errors: seq<string>, line: string, lines: seq<string>, seen: set<string>, terminal: bool,
                     lines': seq<string>, seen': set<string>, terminal': bool)
    requires Keeps(rules, errors, lines, seen, terminal)
    requires lines' == if line in seen then lines else LastOf(lines + [line])
    requires seen' == seen + {line} && terminal' == (terminal || rules.terminal(line))
    ensures Keeps(rules, errors + [line], lines', seen', terminal')
  {
    assert (errors + [line])[..|errors|] == errors;
    TerminalOneMore(rules, errors, line);
    LastOfOneMore(FirstOccurrences(errors), line);
    assert forall x :: x in errors + [line] <==> x in errors || x == line;
  }

  lemma TerminalOneMore(rules: Rules, errors: seq<string>, line: string)
    ensures SomeTerminal(rules, errors + [line]) <==> SomeTerminal(rules, errors) || rules.terminal(line)
  {
    var more := errors + [line];
    assert more[|errors|] == line;
    assert forall i | 0 <= i < |errors| :: more[i] == errors[i];
  }

  lemma LastOfOneMore(all: seq<string>, line: string)
    ensures LastOf(LastOf(all) + [line]) == LastOf(all + [line])
  {
  }

  lemma {:induction false} ErrorsConcat(rules: Rules, a: seq<string>, b: seq<string>)
    ensures Errors(rules, a + b) == Errors(rules, a) + Errors(rules, b)
  {
    if b == [] {
      assert a + b == a;
    } else {
      assert (a + b)[..|a + b| - 1] == a + b[..|b| - 1];
      ErrorsConcat(rules, a, b[..|b| - 1]);
    }
  }

  /** The errors known after one more piece. */
  function WithPiece(rules: Rules, errors: seq<string>, piece: string): seq<string> {
    var line := rules.trim(piece);
    if Reports(rules, line) then errors + [line] else errors
  }

  lemma ErrorsNext(rules: Rules, known: seq<string>, pieces: seq<string>, i: nat)
    requires i < |pieces|
    ensures known + Errors(rules, pieces[..i + 1]) == WithPiece(rules, known + Errors(rules, pieces[..i]), pieces[i])
  {
    assert pieces[..i + 1][..i] == pieces[..i];
  }

  /** What a write of p adds: the pieces up to the last newline, or no line at all. */
  lemma WriteSplits(rules: Rules, stream: string, p: string, data: string, nl: int)
    requires data == Unfinished(stream) + p && nl == LastNewline(data)
    ensures var known, all := Errors(rules, CompleteLines(stream)), Errors(rules, CompleteLines(stream + p));
            if nl < 0 then all == known && Unfinished(stream + p) == data
            else all == known + Errors(rules, Split(data[..nl])) && Unfinished(stream + p) == data[nl + 1..]
  {
    StreamSplits(stream, p);
    ErrorsConcat(rules, CompleteLines(stream), CompleteLines(data));
    if nl < 0 {
      NoLine(data);
    } else {
      CutAt(data, nl);
      SplitAtLast(data[..nl], data[nl + 1..]);
    }
  }

  class ProviderErrorSniffer {
    const rules: Rules
    var remains: string
    var lines: seq<string>
    var seen: set<string>
    var terminal: bool
    ghost var stream: string  // everything written so far

    ghost predicate Valid()
      reads this
    {
      Describes(rules, stream, remains, lines, seen, terminal)
    }

    constructor (rules: Rules)
      ensures Valid() && stream == "" && this.rules == rules
    {
      this.rules := rules;
      remains, lines, seen, terminal, stream := "", [], {}, false, "";
    }

    /** The body of Write's loop: one completed line. */
    method Inspect(piece: string, ghost errors: seq<string>)
      requires Keeps(rules, errors, lines, seen, terminal)
      modifies this`lines, this`seen, this`terminal
      ensures Keeps(rules, WithPiece(rules, errors, piece), lines, seen, terminal)
    {
      var line := rules.trim(piece);
      if line == "" || !(rules.header(line) || rules.detail(line)) {
        return;
      }
      if rules.terminal(line) {
        terminal := true;
      }
      if line !in seen {
        seen := seen + {line};
        lines := lines + [line];
        if |lines| > MAX_LINES {
          lines := lines[|lines| - MAX_LINES..];
        }
      }
      KeepsOneMore(rules, errors, line, old(lines), old(seen), old(terminal), lines, seen, terminal);
    }

    method Write(p: string) returns (n: nat)
      requires Valid()
      modifies this
      ensures Valid() && stream == old(stream) + p && n == |p|
    {
      var data := remains + p;
      var nl := LastNewline(data);
      ghost var known := Errors(rules, CompleteLines(stream));
      WriteSplits(rules, stream, p, data, nl);
      stream := stream + p;
      n := |p|;
      if nl < 0 {
        remains := data;
        return;
      }
      var pieces := Split(data[..nl]);
      remains := data[nl + 1..];
      assert known + [] == known;
      for i := 0 to |pieces|
        invariant Keeps(rules, known + Errors(rules, pieces[..i]), lines, seen, terminal)
        invariant stream == old(stream) + p && remains == data[nl + 1..]
      {
        ErrorsNext(rules, known, pieces, i);
        Inspect(pieces[i], known + Errors(rules, pieces[..i]));
      }
      assert pieces[..|pieces|] == pieces;
    }
  }

  function Concat(chunks: seq<string>): string {
    if chunks == [] then "" else chunks[0] + Concat(chunks[1..])
  }

  /**
   Feeds the chunks one Write at a time. Describes fixes all four fields from the whole stream, so
   two ways of cutting the same bytes into writes cannot be told apart.
   */
  method WriteAll(rules: Rules, chunks: seq<string>)
    returns (remains: string, lines: seq<string>, seen: set<string>, terminal: bool)
    ensures Describes(rules, Concat(chunks), remains, lines, seen, terminal)
  {
    var sniffer := new ProviderErrorSniffer(rules);
    for i := 0 to |chunks|
      invariant sniffer.Valid() && sniffer.rules == rules
      invariant sniffer.stream + Concat(chunks[i..]) == Concat(chunks)
    {
      assert chunks[i..][1..] == chunks[i + 1..];
      ghost var before := sniffer.stream;
      var n := sniffer.Write(chunks[i]);
      assert before + (chunks[i] + Concat(chunks[i + 1..])) == (before + chunks[i]) + Concat(chunks[i + 1..]);
    }
    assert sniffer.stream + "" == sniffer.stream;
    remains, lines, seen, terminal := sniffer.remains, sniffer.lines, sniffer.seen, sniffer.terminal;
  }
}
