/**
 * The log stream's line splitter (logLineWriter in logs.go): bytes arrive in arbitrary chunks, each
 * complete line is sent as one entry, and what follows the last newline waits in the buffer.
 */
module LogLines {

  import opened Wrappers

  newtype Byte = b: int | 0 <= b < 256

  const NEWLINE: Byte := 10
  const RETURN: Byte := 13
  const BLANK: Byte := 32

  /** The stamp is the line's own when it starts with one, and otherwise the clock's: None. */
  datatype Entry = Entry(stamp: Option<nat>, message: seq<Byte>)

  /** bytes.Cut: where the separator first occurs, or the length. */
  function Before(s: seq<Byte>, separator: Byte): (n: nat)
    ensures n <= |s| && separator !in s[..n]
    ensures n < |s| ==> s[n] == separator
  {
    if s == [] || s[0] == separator then 0
    else
      assert s == [s[0]] + s[1..];
      1 + Before(s[1..], separator)
  }

  function TrimReturn(line: seq<Byte>): seq<Byte> {
    if line != [] && line[|line| - 1] == RETURN then line[..|line| - 1] else line
  }

  function EntryOf(line: seq<Byte>, parse: seq<Byte> -> Option<nat>): Entry {
    var message := TrimReturn(line);
    var n := Before(message, BLANK);
    if n < |message| && parse(message[..n]).Some? then Entry(parse(message[..n]), message[n + 1..])
    else Entry(None, message)
  }

  /** A line that starts with a stamp and a blank is sent with that stamp and what follows the blank; any other
      is sent whole, with the clock's; a carriage return at its end is never sent. */
  lemma {:induction false} EntryTakesTheStamp(line: seq<Byte>, parse: seq<Byte> -> Option<nat>)
    ensures var message := if line != [] && line[|line| - 1] == 13 then line[..|line| - 1] else line;
      && (32 !in message ==> EntryOf(line, parse) == Entry(None, message))
      && forall first, rest :: 32 !in first && message == first + [32] + rest ==>
           EntryOf(line, parse) == if parse(first).Some? then Entry(parse(first), rest) else Entry(None, message)
  {
    var message := TrimReturn(line);
    var n := Before(message, BLANK);
    assert n < |message| ==> message[n] == BLANK && BLANK in message;
    forall first, rest | 32 !in first && message == first + [32] + rest
      ensures n == |first| && message[..n] == first && message[n + 1..] == rest
    {
      assert message[|first|] == BLANK;
      assert forall j :: 0 <= j < n ==> message[..n][j] == message[j];
      assert forall j :: 0 <= j < |first| ==> message[j] == first[j];
    }
  }

  /** The complete lines, and the rest after the last newline. */
  function Lines(s: seq<Byte>): (lines: seq<seq<Byte>>)
    decreases |s|
  {
    var n := Before(s, NEWLINE);
    if n == |s| then [] else [s[..n]] + Lines(s[n + 1..])
  }

  function Remainder(s: seq<Byte>): (rest: seq<Byte>)
    decreases |s|
  {
    var n := Before(s, NEWLINE);
    if n == |s| then s else Remainder(s[n + 1..])
  }

  /** What is left of s once its first k lines are cut off. */
  function AfterLines(s: seq<Byte>, k: nat): (rest: seq<Byte>)
    requires k <= |Lines(s)|
    decreases k
  {
    if k == 0 then s else AfterLines(s[Before(s, NEWLINE) + 1..], k - 1)
  }

  function Entries(lines: seq<seq<Byte>>, parse: seq<Byte> -> Option<nat>): (entries: seq<Entry>)
    ensures |entries| == |lines|
    ensures forall i :: 0 <= i < |lines| ==> entries[i] == EntryOf(lines[i], parse)
  {
    seq(|lines|, i requires 0 <= i < |lines| => EntryOf(lines[i], parse))
  }

  // ---- The lines are the one way to cut the bytes at their newlines --------------------------------------

  function Text(lines: seq<seq<Byte>>): seq<Byte> {
    if lines == [] then [] else lines[0] + [NEWLINE] + Text(lines[1..])
  }

  ghost predicate Whole(lines: seq<seq<Byte>>) { forall line :: line in lines ==> NEWLINE !in line }

  lemma {:induction false} LinesStep(s: seq<Byte>)
    ensures var n := Before(s, NEWLINE);
      if n == |s| then Lines(s) == [] && Remainder(s) == s
      else Lines(s) == [s[..n]] + Lines(s[n + 1..]) && Remainder(s) == Remainder(s[n + 1..])
  {
  }

  lemma {:induction false} TextStep(line: seq<Byte>, lines: seq<seq<Byte>>)
    ensures Text([line] + lines) == line + [NEWLINE] + Text(lines)
  {
    assert ([line] + lines)[1..] == lines;
  }

  /** Nothing is lost or added, and no newline is left inside a line or in the rest. */
  lemma {:induction false} LinesSpell(s: seq<Byte>)
    ensures Text(Lines(s)) + Remainder(s) == s && Whole(Lines(s)) && NEWLINE !in Remainder(s)
    decreases |s|
  {
    hide Lines, Remainder, Before, Text;
    LinesStep(s);
    var n := Before(s, NEWLINE);
    if n < |s| {
      var line, rest := s[..n], s[n + 1..];
      LinesSpell(rest);
      TextStep(line, Lines(rest));
      assert line + [NEWLINE] + Text(Lines(rest)) + Remainder(rest) == line + [NEWLINE] + rest;
      assert s == line + [NEWLINE] + rest;
    } else {
      assert s[..n] == s;
      assert Text([]) + s == s by { TextOfNone(); }
    }
  }

  lemma {:induction false} TextOfNone()
    ensures Text([]) == []
  {
  }

  lemma {:induction false} BeforeIs(line: seq<Byte>, after: seq<Byte>)
    requires NEWLINE !in line
    ensures Before(line + [NEWLINE] + after, NEWLINE) == |line|
  {
    hide Before;
    var s := line + [NEWLINE] + after;
    var n := Before(s, NEWLINE);
    assert s[|line|] == NEWLINE;
    assert forall j :: 0 <= j < n ==> s[..n][j] == s[j];
    assert forall j :: 0 <= j < |line| ==> s[j] == line[j];
  }

  lemma {:induction false} LinesAreUnique(lines: seq<seq<Byte>>, rest: seq<Byte>)
    requires Whole(lines) && NEWLINE !in rest
    ensures Lines(Text(lines) + rest) == lines && Remainder(Text(lines) + rest) == rest
  {
    var s := Text(lines) + rest;
    if lines == [] {
      assert s == rest;
      assert Before(s, NEWLINE) == |s|;
    } else {
      var after := Text(lines[1..]) + rest;
      assert s == lines[0] + [NEWLINE] + after;
      BeforeIs(lines[0], after);
      LinesAreUnique(lines[1..], rest);
      assert s[..|lines[0]|] == lines[0] && s[|lines[0]| + 1..] == after;
    }
  }

  // ---- Chunking does not matter --------------------------------------------------------------------------

  lemma {:induction false} TextConcat(a: seq<seq<Byte>>, b: seq<seq<Byte>>)
    ensures Text(a + b) == Text(a) + Text(b)
  {
    hide Text;
    if a == [] {
      TextOfNone();
      assert a + b == b;
    } else {
      TextConcat(a[1..], b);
      TextStep(a[0], a[1..]);
      TextStep(a[0], a[1..] + b);
      assert a + b == [a[0]] + (a[1..] + b) && a == [a[0]] + a[1..];
      var line := a[0] + [NEWLINE];
      assert line + (Text(a[1..]) + Text(b)) == line + Text(a[1..]) + Text(b);
    }
  }

  /** Cutting what came before, and then its rest together with what comes next, cuts the whole. */
  lemma {:induction false} LinesOfConcat(a: seq<Byte>, b: seq<Byte>)
    ensures Lines(a + b) == Lines(a) + Lines(Remainder(a) + b)
    ensures Remainder(a + b) == Remainder(Remainder(a) + b)
  {
    hide Lines, Remainder, Text;
    var next := Remainder(a) + b;
    LinesSpell(a);
    LinesSpell(next);
    var lines, rest := Lines(a) + Lines(next), Remainder(next);
    TextConcat(Lines(a), Lines(next));
    assert Text(lines) + rest == Text(Lines(a)) + (Text(Lines(next)) + rest);
    assert Text(lines) + rest == Text(Lines(a)) + Remainder(a) + b;
    LinesAreUnique(lines, rest);
  }

  function Joined(chunks: seq<seq<Byte>>): seq<Byte> {
    if chunks == [] then [] else Joined(chunks[..|chunks| - 1]) + chunks[|chunks| - 1]
  }

  // ---- The writer ----------------------------------------------------------------------------------------

  class Writer {
    const parse: seq<Byte> -> Option<nat>
    var buffer: seq<Byte>
    var sent: seq<Entry>

    constructor (parse: seq<Byte> -> Option<nat>)
      ensures this.parse == parse && buffer == [] && sent == []
    {
      this.parse, buffer, sent := parse, [], [];
    }

    /** The channel takes the entry, or the request is over; when both hold, either may happen. */
    method Emit(line: seq<Byte>, over: bool) returns (ok: bool)
      modifies `sent
      ensures ok == !over
      ensures sent == if ok then old(sent) + [EntryOf(line, parse)] else old(sent)
    {
      if over {
        return false;
      }
      sent := sent + [EntryOf(line, parse)];
      ok := true;
    }

    /** Sends every complete line of what was held and p, in order, and holds the rest. When the request
        ends at the line numbered cut, that line is lost, and what follows it is held as it came. */
    method Write(p: seq<Byte>, cut: Option<nat>) returns (n: nat, ok: bool)
      modifies this
      ensures var all := old(buffer) + p;
        && ok == (cut.None? || cut.value >= |Lines(all)|)
        && (ok ==> n == |p| && buffer == Remainder(all) && sent == old(sent) + Entries(Lines(all), parse))
        && (!ok ==> n == 0 && buffer == AfterLines(all, cut.value + 1)
                    && sent == old(sent) + Entries(Lines(all)[..cut.value], parse))
    {
      hide Lines, AfterLines, Remainder, Before, Entries, EntryOf;
      buffer := buffer + p;
      ghost var all := buffer;
      var k := 0;
      Nothing(parse);
      NoneCut(all);
      assert Lines(all)[..0] == [];
      while true
        invariant 0 <= k <= |Lines(all)| && buffer == AfterLines(all, k)
        invariant cut.None? || k <= cut.value
        invariant sent == old(sent) + Entries(Lines(all)[..k], parse)
        decreases |Lines(all)| - k
      {
        CutsOff(all, k);
        var i := Before(buffer, NEWLINE);
        if i == |buffer| {
          assert Lines(all)[..k] == Lines(all);
          return |p|, true;
        }
        var line := buffer[..i];
        buffer := buffer[i + 1..];
        var taken := Emit(line, cut == Some(k));
        if !taken {
          return 0, false;
        }
        EntriesStep(Lines(all), k, parse);
        k := k + 1;
      }
    }

    /** Sends precisely a nonempty rest. */
    method Flush(over: bool)
      modifies this
      ensures buffer == []
      ensures sent == old(sent) + if old(buffer) == [] || over then [] else [EntryOf(old(buffer), parse)]
    {
      if |buffer| > 0 {
        var _ := Emit(buffer, over);
        buffer := [];
      }
    }
  }

  lemma {:induction false} AfterStep(s: seq<Byte>, k: nat)
    requires 0 < k <= |Lines(s)|
    ensures var n := Before(s, NEWLINE);
      && n < |s| && k - 1 <= |Lines(s[n + 1..])| && Lines(s)[k..] == Lines(s[n + 1..])[k - 1..]
      && AfterLines(s, k) == AfterLines(s[n + 1..], k - 1)
  {
    hide Lines, Before;
    LinesStep(s);
  }

  lemma {:induction false} AfterHasRest(s: seq<Byte>, k: nat)
    requires k <= |Lines(s)|
    ensures Lines(AfterLines(s, k)) == Lines(s)[k..] && Remainder(AfterLines(s, k)) == Remainder(s)
    decreases k
  {
    if k > 0 {
      hide Lines, Remainder, AfterLines, Before;
      AfterStep(s, k);
      LinesStep(s);
      AfterHasRest(s[Before(s, NEWLINE) + 1..], k - 1);
    } else {
      NoneCut(s);
    }
  }

  lemma {:induction false} AfterOneMore(s: seq<Byte>, k: nat)
    requires k < |Lines(s)|
    ensures var b := AfterLines(s, k);
      var n := Before(b, NEWLINE);
      n < |b| && b[n + 1..] == AfterLines(s, k + 1)
    decreases k
  {
    if k > 0 {
      hide Lines, Remainder, AfterLines, Before;
      AfterStep(s, k);
      AfterStep(s, k + 1);
      LinesStep(s);
      AfterOneMore(s[Before(s, NEWLINE) + 1..], k - 1);
    } else {
      LinesStep(s);
      NoneCut(s);
    }
  }

  /** What is held after a cut is what the lines before it leave of the bytes. */
  lemma {:induction false} AfterLinesSpell(s: seq<Byte>, k: nat)
    requires k <= |Lines(s)|
    ensures Text(Lines(s)[..k]) + AfterLines(s, k) == s
    decreases k
  {
    hide Lines, Text, AfterLines, Before;
    if k == 0 {
      NoneCut(s);
      TextOfNone();
      assert Lines(s)[..0] == [];
    } else {
      var n := Before(s, NEWLINE);
      AfterStep(s, k);
      LinesStep(s);
      AfterLinesSpell(s[n + 1..], k - 1);
      var line, rest := s[..n], Lines(s[n + 1..])[..k - 1];
      assert Lines(s)[..k] == [line] + rest;
      TextStep(line, rest);
      assert s == line + [NEWLINE] + s[n + 1..];
    }
  }

  /** Where the loop of Write stands after k lines. */
  lemma {:induction false} CutsOff(s: seq<Byte>, k: nat)
    requires k <= |Lines(s)|
    ensures var b := AfterLines(s, k);
      && Lines(b) == Lines(s)[k..] && Remainder(b) == Remainder(s)
      && var n := Before(b, NEWLINE);
      && (n < |b| <==> k < |Lines(s)|)
      && (n == |b| ==> b == Remainder(s))
      && (n < |b| ==> b[..n] == Lines(s)[k] && b[n + 1..] == AfterLines(s, k + 1))
  {
    hide Lines, Remainder, AfterLines, Before;
    var b := AfterLines(s, k);
    AfterHasRest(s, k);
    LinesStep(b);
    if k < |Lines(s)| {
      AfterOneMore(s, k);
      assert Lines(b)[0] == Lines(s)[k];
    }
  }

  /** A whole stream: after any number of writes the entries sent are exactly the complete lines of all the
      bytes, and flushing adds the rest when there is one. */
  method Stream(chunks: seq<seq<Byte>>, parse: seq<Byte> -> Option<nat>) returns (w: Writer)
    ensures fresh(w)
    ensures var all := Joined(chunks);
      w.sent == Entries(Lines(all), parse) + if Remainder(all) == [] then [] else [EntryOf(Remainder(all), parse)]
  {
    hide Lines, Remainder, Entries, EntryOf;
    w := new Writer(parse);
    Nothing(parse);
    for i := 0 to |chunks|
      invariant fresh(w) && w.parse == parse
      invariant w.buffer == Remainder(Joined(chunks[..i])) && w.sent == Entries(Lines(Joined(chunks[..i])), parse)
    {
      ghost var before := Joined(chunks[..i]);
      assert chunks[..i + 1][..i] == chunks[..i];
      LinesOfConcat(before, chunks[i]);
      EntriesConcat(Lines(before), Lines(w.buffer + chunks[i]), parse);
      var _, ok := w.Write(chunks[i], None);
    }
    assert chunks[..|chunks|] == chunks;
    w.Flush(false);
  }

  lemma {:induction false} Nothing(parse: seq<Byte> -> Option<nat>)
    ensures Lines([]) == [] && Remainder([]) == [] && Entries([], parse) == []
  {
  }

  lemma {:induction false} NoneCut(s: seq<Byte>)
    ensures AfterLines(s, 0) == s
  {
  }

  lemma {:induction false} EntriesStep(lines: seq<seq<Byte>>, k: nat, parse: seq<Byte> -> Option<nat>)
    requires k < |lines|
    ensures Entries(lines[..k + 1], parse) == Entries(lines[..k], parse) + [EntryOf(lines[k], parse)]
  {
    hide EntryOf;
  }

  lemma {:induction false} EntriesConcat(a: seq<seq<Byte>>, b: seq<seq<Byte>>, parse: seq<Byte> -> Option<nat>)
    ensures Entries(a + b, parse) == Entries(a, parse) + Entries(b, parse)
  {
  }
}
