/**
 * How an answer is streamed (sayer in bora.go): the line to read aloud, which opens the answer between
 * <say> and </say>, is held back until it is complete and sent as one event, ahead of the rest of the
 * text. The text arrives in arbitrary chunks; a character here is a rune.
 */
module Sayer {

  const HOLD := 1000
  const OPENER := "<say>"
  const CLOSER := "</say>"
  const FORM_FEED := '\U{000C}'

  datatype Event = Say(text: string) | Delta(text: string) | Reset

  // ---- The pieces of the regular expression ^\s*<say>(.*?)</say>\s* ------------------------------------

  /** What \s matches; strings.TrimLeft trims the same characters but the form feed. */
  predicate IsSpace(c: char) { c == ' ' || c == '\t' || c == '\n' || c == '\r' || c == FORM_FEED }

  predicate IsTrimmed(c: char) { IsSpace(c) && c != FORM_FEED }

  function Spaces(s: string): (n: nat)
    ensures n <= |s|
  {
    if s == "" || !IsSpace(s[0]) then 0 else 1 + Spaces(s[1..])
  }

  function TrimLeft(s: string): string {
    if s == "" || !IsTrimmed(s[0]) then s else TrimLeft(s[1..])
  }

  function TrimOpener(s: string): string { if OPENER <= s then s[|OPENER|..] else s }

  /** The first place at which closer occurs, or -1. */
  function Closing(s: string): (k: int)
    ensures -1 <= k && (k >= 0 ==> k + |CLOSER| <= |s|)
  {
    if CLOSER <= s then 0
    else if s == "" then -1
    else
      var k := Closing(s[1..]);
      if k < 0 then -1 else 1 + k
  }

  datatype Match = NoMatch | Match(say: string, length: nat)

  function SayTag(s: string): (m: Match)
    ensures m.Match? ==> m.length <= |s|
  {
    var i := Spaces(s);
    if !(OPENER <= s[i..]) then NoMatch
    else
      var body := s[i + |OPENER|..];
      var k := Closing(body);
      if k < 0 then NoMatch
      else
        var after := body[k + |CLOSER|..];
        Match(body[..k], |s| - |after| + Spaces(after))
  }

  // ---- sayer.write ---------------------------------------------------------------------------------------

  datatype State = State(head: string, open: bool, said: bool)

  const NEW_ROUND := State("", false, false)

  /** Whether the head shows how the round opens: with a complete say, or with something else. */
  predicate Decided(head: string) {
    var h := TrimLeft(head);
    SayTag(head).Match? || !(h <= OPENER || (OPENER <= h && |h| < HOLD))
  }

  function Spoken(head: string, spoken: string -> string): seq<Event> {
    var m := SayTag(head);
    if m.Match? && spoken(m.say) != "" then [Say(spoken(m.say))] else []
  }

  /** The text that follows the say, or the whole text when there is none, without a stray opener. */
  function Rest(head: string): string {
    var m := SayTag(head);
    TrimOpener(if m.Match? then head[m.length..] else TrimLeft(head))
  }

  function Opening(head: string, spoken: string -> string): seq<Event> {
    Spoken(head, spoken) + if Rest(head) != "" then [Delta(Rest(head))] else []
  }

  function Write(w: State, text: string, spoken: string -> string): (State, seq<Event>) {
    if w.open then (w, [Delta(text)])
    else
      var head := w.head + text;
      if Decided(head) then (State(head, true, Spoken(head, spoken) != []), Opening(head, spoken))
      else (w.(head := head), [])
  }

  function WriteAll(chunks: seq<string>, spoken: string -> string): (State, seq<Event>) {
    if chunks == [] then (NEW_ROUND, [])
    else
      var (w, events) := WriteAll(chunks[..|chunks| - 1], spoken);
      var (w', more) := Write(w, chunks[|chunks| - 1], spoken);
      (w', events + more)
  }

  function Joined(chunks: seq<string>): string {
    if chunks == [] then "" else Joined(chunks[..|chunks| - 1]) + chunks[|chunks| - 1]
  }

  function Deltas(events: seq<Event>): string {
    if events == [] then ""
    else Deltas(events[..|events| - 1]) + if events[|events| - 1].Delta? then events[|events| - 1].text else ""
  }

  /** The object itself: write and reset change its fields and publish. */
  class Writer {
    const spoken: string -> string
    var head: string
    var open: bool
    var said: bool
    var published: seq<Event>

    ghost function Abs(): State
      reads this
    {
      State(head, open, said)
    }

    constructor (spoken: string -> string)
      ensures Abs() == NEW_ROUND && published == [] && this.spoken == spoken
    {
      this.spoken := spoken;
      head, open, said, published := "", false, false, [];
    }

    method WriteText(text: string)
      requires !open ==> !said
      modifies this
      ensures Abs() == Write(old(Abs()), text, spoken).0
      ensures published == old(published) + Write(old(Abs()), text, spoken).1
      ensures !open ==> !said
    {
      hide TrimLeft, SayTag, TrimOpener;
      if open {
        published := published + [Delta(text)];
        return;
      }
      head := head + text;
      var rest := TrimLeft(head);
      match SayTag(head) {
        case Match(say, length) =>
          if spoken(say) != "" {
            published := published + [Say(spoken(say))];
            said := true;
          }
          rest := head[length..];
        case NoMatch =>
          if rest <= OPENER || (OPENER <= rest && |rest| < HOLD) {
            return;
          }
      }
      open := true;
      rest := TrimOpener(rest);
      if rest != "" {
        published := published + [Delta(rest)];
      }
    }

    method ResetRound()
      modifies this
      ensures Abs() == NEW_ROUND && published == old(published) + [Reset]
    {
      head, open, said := "", false, false;
      published := published + [Reset];
    }
  }

  // ---- Every chunking is faithful ------------------------------------------------------------------------

  lemma {:induction false} DeltasSnoc(a: seq<Event>, e: Event)
    ensures Deltas(a + [e]) == Deltas(a) + if e.Delta? then e.text else ""
  {
    assert (a + [e])[..|a|] == a;
  }

  lemma {:induction false} OpeningDeltas(head: string, spoken: string -> string)
    ensures Deltas(Opening(head, spoken)) == Rest(head)
  {
    assert Deltas([]) == "";
    DeltasSnoc([], Say(""));
    var s := Spoken(head, spoken);
    if s != [] {
      DeltasSnoc([], s[0]);
      assert [] + [s[0]] == s;
    }
    hide Rest, Spoken;
    if Rest(head) != "" {
      DeltasSnoc(s, Delta(Rest(head)));
    } else {
      assert Opening(head, spoken) == s;
    }
  }

  lemma {:induction false} JoinedSnoc(chunks: seq<string>, c: string)
    ensures Joined(chunks + [c]) == Joined(chunks) + c
  {
    assert (chunks + [c])[..|chunks|] == chunks;
  }

  /** The number of chunks after which the round opened; none when it is still held. */
  function OpenedAfter(chunks: seq<string>): (k: nat)
    ensures k <= |chunks|
  {
    if chunks == [] then 0
    else
      var k := OpenedAfter(chunks[..|chunks| - 1]);
      if k > 0 then k
      else if Decided(Joined(chunks)) then |chunks|
      else 0
  }

  /** While nothing is decided nothing is sent and all is held; from the chunk that decides it, the events
      are at most one say, first, and deltas whose text is that of the round from there on, nothing lost,
      repeated or reordered. */
  ghost predicate Faithful(chunks: seq<string>, spoken: string -> string, w: State, events: seq<Event>) {
    var k := OpenedAfter(chunks);
    if k == 0 then w == State(Joined(chunks), false, false) && events == []
    else
      var head := Joined(chunks[..k]);
      && w.open && (w.said <==> Spoken(head, spoken) != []) && Decided(head) && head <= Joined(chunks)
      && Spoken(head, spoken) <= events
      && (forall i :: |Spoken(head, spoken)| <= i < |events| ==> events[i].Delta?)
      && Deltas(events) == Rest(head) + Joined(chunks)[|head|..]
  }

  lemma {:induction false} OpenedSnoc(chunks: seq<string>, c: string)
    ensures OpenedAfter(chunks + [c])
         == if OpenedAfter(chunks) > 0 then OpenedAfter(chunks)
            else if Decided(Joined(chunks + [c])) then |chunks| + 1
            else 0
  {
    hide Decided;
    assert (chunks + [c])[..|chunks|] == chunks;
  }

  lemma {:induction false} WriteAllSnoc(chunks: seq<string>, c: string, spoken: string -> string)
    ensures var (w, events) := WriteAll(chunks, spoken);
      var (w', more) := Write(w, c, spoken);
      WriteAll(chunks + [c], spoken) == (w', events + more)
  {
    hide Write;
    assert (chunks + [c])[..|chunks|] == chunks;
  }

  lemma {:induction false} StaysFaithful(chunks: seq<string>, c: string, spoken: string -> string, w: State,
                                         events: seq<Event>)
    requires Faithful(chunks, spoken, w, events)
    ensures var (w', more) := Write(w, c, spoken); Faithful(chunks + [c], spoken, w', events + more)
  {
    hide Decided, Spoken, Rest, Joined, OpenedAfter, Deltas, Opening;
    OpenedSnoc(chunks, c);
    JoinedSnoc(chunks, c);
    var all := chunks + [c];
    var k := OpenedAfter(chunks);
    if k > 0 {
      assert all[..k] == chunks[..k];
      var head := Joined(chunks[..k]);
      DeltasSnoc(events, Delta(c));
      assert Joined(all)[|head|..] == Joined(chunks)[|head|..] + c;
      assert Deltas(events + [Delta(c)]) == Rest(head) + Joined(all)[|head|..];
      assert head <= Joined(all);
    } else {
      var head := Joined(all);
      assert all[..|all|] == all;
      assert w.head + c == head;
      if Decided(head) {
        OpeningDeltas(head, spoken);
        OpeningShape(head, spoken);
        assert events + Opening(head, spoken) == Opening(head, spoken);
        assert Rest(head) + head[|head|..] == Rest(head);
      }
    }
  }

  lemma {:induction false} OpeningShape(head: string, spoken: string -> string)
    ensures Spoken(head, spoken) <= Opening(head, spoken)
    ensures forall i :: |Spoken(head, spoken)| <= i < |Opening(head, spoken)| ==> Opening(head, spoken)[i].Delta?
  {
    hide Spoken, Rest;
  }

  /** In every round, whatever the chunks. */
  lemma {:induction false} StreamingIsFaithful(chunks: seq<string>, spoken: string -> string)
    ensures Faithful(chunks, spoken, WriteAll(chunks, spoken).0, WriteAll(chunks, spoken).1)
  {
    if chunks == [] {
      assert Joined(chunks) == "";
    } else {
      hide Faithful, Write, WriteAll;
      var most := chunks[..|chunks| - 1];
      var last := chunks[|chunks| - 1];
      assert chunks == most + [last];
      StreamingIsFaithful(most, spoken);
      StaysFaithful(most, last, spoken, WriteAll(most, spoken).0, WriteAll(most, spoken).1);
      WriteAllSnoc(most, last, spoken);
    }
  }

  /** A round is marked as said exactly when it has sent a say, which is then its first event and its only one. */
  lemma {:induction false} SaidWhenSent(chunks: seq<string>, spoken: string -> string)
    ensures var (w, events) := WriteAll(chunks, spoken);
      && (w.said <==> events != [] && events[0].Say?)
      && forall i :: 0 < i < |events| ==> events[i].Delta?
  {
    hide Decided, SayTag, Rest, WriteAll, Joined, OpenedAfter, Deltas;
    StreamingIsFaithful(chunks, spoken);
    var (w, events) := WriteAll(chunks, spoken);
    var k := OpenedAfter(chunks);
    if k > 0 && w.said {
      assert events[0] == Spoken(Joined(chunks[..k]), spoken)[0];
    }
  }

  // ---- What the opening cuts away ------------------------------------------------------------------------

  predicate AllSpace(s: string) { forall i :: 0 <= i < |s| ==> IsSpace(s[i]) }

  lemma {:induction false} SpacesShape(s: string)
    ensures AllSpace(s[..Spaces(s)])
    ensures Spaces(s) < |s| ==> !IsSpace(s[Spaces(s)])
  {
    if s != "" && IsSpace(s[0]) {
      SpacesShape(s[1..]);
      assert s[..Spaces(s)] == [s[0]] + s[1..][..Spaces(s[1..])];
    }
  }

  lemma {:induction false} ClosingIsThere(s: string)
    ensures var k := Closing(s); k >= 0 ==> s[k..k + |CLOSER|] == CLOSER
  {
    if CLOSER <= s {
      assert s[0..|CLOSER|] == CLOSER;
    } else if s != "" {
      ClosingIsThere(s[1..]);
      var k := Closing(s[1..]);
      if k >= 0 {
        assert s[1 + k..1 + k + |CLOSER|] == s[1..][k..k + |CLOSER|];
      }
    }
  }

  lemma {:induction false} ClosingIsFirst(s: string, j: nat)
    requires j <= |s| && CLOSER <= s[j..]
    ensures 0 <= Closing(s) <= j
  {
    if j == 0 {
      assert s[0..] == s;
    } else {
      assert s[j..] == s[1..][j - 1..];
      ClosingIsFirst(s[1..], j - 1);
    }
  }

  lemma {:induction false} TrimLeftShape(s: string) returns (n: nat)
    ensures n <= |s| && TrimLeft(s) == s[n..] && AllSpace(s[..n])
    ensures forall k :: 0 <= k < n ==> s[k] in {' ', '\t', '\r', '\n'}
    ensures n < |s| ==> s[n] !in {' ', '\t', '\r', '\n'}
  {
    if s == "" || !IsTrimmed(s[0]) {
      n := 0;
    } else {
      var m := TrimLeftShape(s[1..]);
      n := m + 1;
      assert s[..n] == [s[0]] + s[1..][..m];
    }
  }

  predicate ClosesAt(s: string, p: nat) { p + |CLOSER| <= |s| && s[p..p + |CLOSER|] == CLOSER }

  lemma {:induction false} ClosesFirst(s: string, start: nat)
    requires start <= |s| && Closing(s[start..]) >= 0
    ensures var j := start + Closing(s[start..]);
      ClosesAt(s, j) && forall p :: start <= p < j ==> !ClosesAt(s, p)
  {
    hide Closing;
    var body := s[start..];
    var k := Closing(body);
    ClosingIsThere(body);
    assert body[k..k + |CLOSER|] == s[start + k..start + k + |CLOSER|];
    forall p | start <= p < start + k ensures !ClosesAt(s, p) {
      if ClosesAt(s, p) {
        assert body[p - start..][..|CLOSER|] == s[p..p + |CLOSER|];
        ClosingIsFirst(body, p - start);
        assert false;
      }
    }
  }

  /** A match is white space up to i, an opener, the text up to the first closer from there, at j, and all
      the white space after that. */
  lemma {:induction false} TagShape(s: string) returns (i: nat, j: nat)
    requires SayTag(s).Match?
    ensures i + |OPENER| <= j && j + |CLOSER| <= SayTag(s).length <= |s|
    ensures AllSpace(s[..i]) && s[i..i + |OPENER|] == OPENER
    ensures SayTag(s).say == s[i + |OPENER|..j] && ClosesAt(s, j)
    ensures forall p :: i + |OPENER| <= p < j ==> !ClosesAt(s, p)
    ensures AllSpace(s[j + |CLOSER|..SayTag(s).length])
    ensures SayTag(s).length < |s| ==> !IsSpace(s[SayTag(s).length])
    ensures forall k :: 0 <= k < i || j + |CLOSER| <= k < SayTag(s).length ==>
              s[k] in {' ', '\t', '\r', '\n', '\U{000C}'}
    ensures SayTag(s).length < |s| ==> s[SayTag(s).length] !in {' ', '\t', '\r', '\n', '\U{000C}'}
  {
    i, j := TagPieces(s);
    var length := SayTag(s).length;
    forall k | 0 <= k < i || j + |CLOSER| <= k < length
      ensures IsSpace(s[k])
    {
      if k < i {
        assert s[..i][k] == s[k];
      } else {
        assert s[j + |CLOSER|..length][k - j - |CLOSER|] == s[k];
      }
    }
  }

  lemma {:induction false} TagPieces(s: string) returns (i: nat, j: nat)
    requires SayTag(s).Match?
    ensures i + |OPENER| <= j && j + |CLOSER| <= SayTag(s).length <= |s|
    ensures AllSpace(s[..i]) && s[i..i + |OPENER|] == OPENER
    ensures SayTag(s).say == s[i + |OPENER|..j] && ClosesAt(s, j)
    ensures forall p :: i + |OPENER| <= p < j ==> !ClosesAt(s, p)
    ensures AllSpace(s[j + |CLOSER|..SayTag(s).length])
    ensures SayTag(s).length < |s| ==> !IsSpace(s[SayTag(s).length])
  {
    hide Spaces, Closing, AllSpace, IsSpace, ClosesAt;
    i := Spaces(s);
    SpacesShape(s);
    var body := s[i + |OPENER|..];
    j := i + |OPENER| + Closing(body);
    ClosesFirst(s, i + |OPENER|);
    var after := s[j + |CLOSER|..];
    assert body[Closing(body) + |CLOSER|..] == after;
    SpacesShape(after);
    assert after[..Spaces(after)] == s[j + |CLOSER|..SayTag(s).length];
  }

  /** And wherever those pieces stand there is a match. */
  lemma {:induction false} TagIsFound(s: string, i: nat, j: nat)
    requires i + |OPENER| <= j && j + |CLOSER| <= |s|
    requires AllSpace(s[..i]) && s[i..i + |OPENER|] == OPENER && ClosesAt(s, j)
    ensures SayTag(s).Match?
  {
    hide Spaces, Closing;
    SpacesShape(s);
    assert s[i] == s[i..i + |OPENER|][0] == '<';
    SpacesAre(s, i);
    var body := s[i + |OPENER|..];
    assert s[i..][..|OPENER|] == OPENER;
    assert body[j - i - |OPENER|..][..|CLOSER|] == s[j..j + |CLOSER|];
    ClosingIsFirst(body, j - i - |OPENER|);
  }

  lemma {:induction false} SpacesAre(s: string, i: nat)
    requires i < |s| && AllSpace(s[..i]) && !IsSpace(s[i])
    ensures Spaces(s) == i
  {
    if i > 0 {
      assert s[..i][0] == s[0];
      assert s[..i][1..] == s[1..][..i - 1];
      SpacesAre(s[1..], i - 1);
    }
  }

  /** A text is held exactly while it has no say yet and may still open with one: after its leading blanks it
      is the beginning of an opener, or an opener that goes on for less than a thousand characters. */
  lemma {:induction false} HeldExactly(text: string) returns (n: nat)
    ensures n <= |text| && (forall k :: 0 <= k < n ==> text[k] in {' ', '\t', '\r', '\n'})
    ensures n < |text| ==> text[n] !in {' ', '\t', '\r', '\n'}
    ensures !Decided(text) <==>
            SayTag(text).NoMatch? && (text[n..] <= "<say>" || ("<say>" <= text[n..] && |text| - n < 1000))
  {
    hide SayTag, TrimLeft, AllSpace;
    n := TrimLeftShape(text);
  }

  lemma {:induction false} OneOpener(left: string) returns (cut: string)
    ensures left == cut + TrimOpener(left) && cut == if OPENER <= left then OPENER else ""
  {
    cut := if OPENER <= left then OPENER else "";
  }

  /** The first delta is a suffix of the text; what it lacks is the say tag with the white space around it,
      or white space alone, and at most one opener. */
  lemma {:induction false} OpeningCutsOnlyTheTag(head: string) returns (front: string, cut: string)
    ensures head == front + (cut + Rest(head))
    ensures match SayTag(head)
            case Match(_, length) => front == head[..length]
            case NoMatch =>
              && (forall k :: 0 <= k < |front| ==> front[k] in {' ', '\t', '\r', '\n'})
              && (|front| < |head| ==> head[|front|] !in {' ', '\t', '\r', '\n'})
    ensures cut == if "<say>" <= head[|front|..] then "<say>" else ""
  {
    hide AllSpace, SayTag, TrimLeft, TrimOpener;
    var from := TrimLeftShape(head);
    if SayTag(head).Match? {
      from := SayTag(head).length;
    }
    front := head[..from];
    cut := OneOpener(head[from..]);
    assert Rest(head) == TrimOpener(head[from..]);
    hide Rest;
  }

  // ---- When chunking does not matter ---------------------------------------------------------------------

  /** Where the say tag ends, without the white space after it. */
  function TagEnd(text: string): (e: nat)
    requires SayTag(text).Match?
    ensures Spaces(text) + |OPENER| + |CLOSER| <= e <= |text|
  {
    Spaces(text) + |OPENER| + |SayTag(text).say| + |CLOSER|
  }

  predicate NoFormFeed(s: string) { forall i :: 0 <= i < |s| ==> s[i] != FORM_FEED }

  /** A caller can see it in the text: no form feed in front of the tag, and the tag within the limit. */
  predicate Steady(text: string)
    requires SayTag(text).Match?
  {
    NoFormFeed(text[..Spaces(text)]) && TagEnd(text) - Spaces(text) <= HOLD
  }

  lemma {:induction false} SpacesOfPrefix(s: string, n: nat)
    requires n <= |s|
    ensures Spaces(s[..n]) == if n <= Spaces(s) then n else Spaces(s)
  {
    if n > 0 && IsSpace(s[0]) {
      assert s[..n][1..] == s[1..][..n - 1];
      SpacesOfPrefix(s[1..], n - 1);
    }
  }

  lemma {:induction false} ClosingOfPrefix(s: string, n: nat)
    requires n <= |s|
    ensures var k := Closing(s); Closing(s[..n]) == if k >= 0 && k + |CLOSER| <= n then k else -1
  {
    hide Closing;
    ClosingIsThere(s);
    ClosingIsThere(s[..n]);
    var k, p := Closing(s), Closing(s[..n]);
    if p >= 0 {
      assert s[..n][p..p + |CLOSER|] == s[p..p + |CLOSER|];
      ClosingIsFirst(s, p);
    }
    if k >= 0 && k + |CLOSER| <= n {
      assert s[..n][k..k + |CLOSER|] == s[k..k + |CLOSER|];
      ClosingIsFirst(s[..n], k);
    }
  }

  /** A prefix shows the same say exactly when it reaches the end of the tag. */
  lemma {:induction false} TagOfPrefix(text: string, n: nat)
    requires SayTag(text).Match? && n <= |text|
    ensures var e := TagEnd(text);
      SayTag(text[..n]) == if n < e then NoMatch else Match(SayTag(text).say, e + Spaces(text[e..n]))
  {
    hide Spaces, Closing;
    var i, e, p := Spaces(text), TagEnd(text), text[..n];
    SpacesOfPrefix(text, n);
    var body := text[i + |OPENER|..];
    if n >= i + |OPENER| {
      var m := n - i - |OPENER|;
      ClosingOfPrefix(body, m);
      assert p[i..] == text[i..][..n - i];
      assert OPENER <= p[i..];
      assert p[i + |OPENER|..] == body[..m];
      if n >= e {
        assert p[i + |OPENER|..][..Closing(body)] == SayTag(text).say;
        assert p[i + |OPENER|..][Closing(body) + |CLOSER|..] == text[e..n];
      }
    }
  }

  /** A prefix that shows a say shows the say of the whole text. */
  lemma {:induction false} TagStays(text: string, n: nat)
    requires n <= |text| && SayTag(text[..n]).Match?
    ensures SayTag(text).Match? && SayTag(text).say == SayTag(text[..n]).say
  {
    hide Spaces, Closing;
    var p := text[..n];
    var i := Spaces(p);
    SpacesOfPrefix(text, n);
    SpacesShape(p);
    SpacesShape(text);
    assert p[i..][0] == '<';
    assert text[i] == p[i] == '<';
    assert Spaces(text) == i;
    var m := n - i - |OPENER|;
    var body := text[i + |OPENER|..];
    assert p[i + |OPENER|..] == body[..m];
    ClosingOfPrefix(body, m);
    assert p[i..] == text[i..][..n - i];
    assert body[..m][..Closing(body)] == body[..Closing(body)];
  }

  lemma {:induction false} TrimLeftWithoutFeed(s: string)
    requires NoFormFeed(s[..Spaces(s)])
    ensures TrimLeft(s) == s[Spaces(s)..]
  {
    if s != "" && IsSpace(s[0]) {
      assert s[..Spaces(s)][0] == s[0];
      assert s[..Spaces(s)][1..] == s[1..][..Spaces(s[1..])];
      TrimLeftWithoutFeed(s[1..]);
    }
  }

  /** In a steady text nothing is decided before the tag has ended. */
  lemma {:induction false} SteadyHolds(text: string, n: nat)
    requires SayTag(text).Match? && Steady(text) && n < TagEnd(text)
    ensures !Decided(text[..n])
  {
    hide Spaces, Closing;
    var i, p := Spaces(text), text[..n];
    TagOfPrefix(text, n);
    SpacesOfPrefix(text, n);
    assert p[..Spaces(p)] == text[..i][..Spaces(p)];
    TrimLeftWithoutFeed(p);
    if n > i {
      assert p[i..] == text[i..][..n - i];
    }
  }

  /** A round opens at the first chunk whose end decides it. */
  lemma {:induction false} OpenedIsFirst(chunks: seq<string>)
    ensures var k := OpenedAfter(chunks);
      && (k > 0 ==> Decided(Joined(chunks[..k])))
      && (k == 0 && chunks != [] ==> !Decided(Joined(chunks)))
      && forall j :: 0 < j < k ==> !Decided(Joined(chunks[..j]))
  {
    hide Decided;
    if chunks != [] {
      var most := chunks[..|chunks| - 1];
      OpenedIsFirst(most);
      var k := OpenedAfter(chunks);
      assert chunks[..|chunks|] == chunks;
      assert forall j :: 0 <= j <= |most| ==> chunks[..j] == most[..j];
      assert most[..|most|] == most;
      if OpenedAfter(most) == 0 && k > 0 {
        forall j | 0 < j < k ensures !Decided(Joined(chunks[..j])) {
          NeverOpened(most, j);
        }
      }
    }
  }

  lemma {:induction false} NeverOpened(chunks: seq<string>, j: nat)
    requires OpenedAfter(chunks) == 0 && 0 < j <= |chunks|
    ensures !Decided(Joined(chunks[..j]))
  {
    hide Decided;
    if j < |chunks| {
      NeverOpened(chunks[..|chunks| - 1], j);
      assert chunks[..|chunks| - 1][..j] == chunks[..j];
    } else {
      assert chunks[..j] == chunks;
    }
  }

  /** The events of a round: the say first if there is one, and otherwise nothing but deltas. */
  ghost predicate Says(events: seq<Event>, say: string) {
    events != [] && events[0] == Say(say) && forall i :: 0 < i < |events| ==> events[i].Delta?
  }

  ghost predicate Silent(events: seq<Event>) { forall i :: 0 <= i < |events| ==> events[i].Delta? }

  /** Whatever the chunks, a say that is sent is the one that opens the whole text. */
  lemma {:induction false} SayIsTheTextsOwn(chunks: seq<string>, spoken: string -> string)
    ensures var events := WriteAll(chunks, spoken).1;
      || Silent(events)
      || (var m := SayTag(Joined(chunks)); m.Match? && spoken(m.say) != "" && Says(events, spoken(m.say)))
  {
    hide Decided, SayTag, Rest, WriteAll, Joined, OpenedAfter;
    StreamingIsFaithful(chunks, spoken);
    var events := WriteAll(chunks, spoken).1;
    var k := OpenedAfter(chunks);
    if k > 0 {
      var head := Joined(chunks[..k]);
      assert Joined(chunks)[..|head|] == head;
      if Spoken(head, spoken) != [] {
        TagStays(Joined(chunks), |head|);
        assert events[0] == Spoken(head, spoken)[0];
      }
    }
  }

  /** In a steady text every chunking sends the say, and then the text after the tag from some place. */
  lemma {:induction false} SteadyRound(chunks: seq<string>, spoken: string -> string) returns (n: nat)
    requires var text := Joined(chunks); SayTag(text).Match? && Steady(text)
    ensures var text := Joined(chunks);
      && TagEnd(text) <= n <= |text|
      && var events := WriteAll(chunks, spoken).1;
      && var say := spoken(SayTag(text).say);
      && (say != "" ==> Says(events, say))
      && Deltas(events) == Rest(text[..n]) + text[n..]
  {
    hide Decided, SayTag, Rest, WriteAll, Joined, OpenedAfter, Steady;
    StreamingIsFaithful(chunks, spoken);
    OpenedIsFirst(chunks);
    var text := Joined(chunks);
    var k := OpenedAfter(chunks);
    WholeIsDecided(text);
    JoinedNothing();
    NothingIsNoTag();
    assert k > 0;
    var head := Joined(chunks[..k]);
    n := |head|;
    assert text[..n] == head;
    if n < TagEnd(text) {
      SteadyHolds(text, n);
    }
    TagOfPrefix(text, n);
    var events := WriteAll(chunks, spoken).1;
    assert Faithful(chunks, spoken, WriteAll(chunks, spoken).0, events);
    if spoken(SayTag(text).say) != "" {
      assert Spoken(head, spoken) == [Say(spoken(SayTag(text).say))];
      assert events[0] == Spoken(head, spoken)[0];
    }
  }

  lemma {:induction false} WholeIsDecided(text: string)
    requires SayTag(text).Match?
    ensures Decided(text)
  {
  }

  lemma {:induction false} JoinedNothing()
    ensures Joined([]) == ""
  {
  }

  lemma {:induction false} NothingIsNoTag()
    ensures SayTag("") == NoMatch
  {
  }

  /** Where the first of two chunks decides, the second follows unchanged. */
  lemma {:induction false} TwoChunks(a: string, b: string, spoken: string -> string)
    requires Decided(a)
    ensures Joined([a, b]) == a + b
    ensures var events := WriteAll([a, b], spoken).1;
      && Spoken(a, spoken) <= events
      && (forall i :: |Spoken(a, spoken)| <= i < |events| ==> events[i].Delta?)
      && Deltas(events) == Rest(a) + b
  {
    hide Decided, SayTag, Rest, WriteAll, OpenedAfter, Joined, Deltas, Spoken;
    JoinedNothing();
    JoinedSnoc([], a);
    JoinedSnoc([a], b);
    assert [] + [a] == [a] && [a] + [b] == [a, b] && "" + a == a;
    OpenedSnoc([], a);
    OpenedSnoc([a], b);
    StreamingIsFaithful([a, b], spoken);
    assert [a, b][..1] == [a];
    assert (a + b)[|a|..] == b;
  }

  /** A first chunk that decides before the tag has ended loses the say. */
  lemma {:induction false} EarlyDecision(text: string, n: nat, spoken: string -> string, say: string)
    requires SayTag(text).Match? && n < TagEnd(text) && Decided(text[..n])
    ensures var chunks := [text[..n], text[n..]];
      Joined(chunks) == text && !Says(WriteAll(chunks, spoken).1, say)
  {
    hide Decided, SayTag, Rest, WriteAll, Joined, Deltas;
    TwoChunks(text[..n], text[n..], spoken);
    assert text[..n] + text[n..] == text;
    TagOfPrefix(text, n);
    assert Spoken(text[..n], spoken) == [];
  }

  lemma {:induction false} TrimLeftStopsAtFeed(s: string, n: nat) returns (f: nat)
    requires n <= |s| && AllSpace(s[..n]) && !NoFormFeed(s[..n])
    ensures f < n && TrimLeft(s[..f + 1]) == [FORM_FEED]
  {
    if s[0] == FORM_FEED {
      f := 0;
    } else {
      assert s[..n][0] == s[0];
      assert s[..n][1..] == s[1..][..n - 1];
      f := TrimLeftStopsAtFeed(s[1..], n - 1);
      f := f + 1;
      assert s[..f + 1][1..] == s[1..][..f];
    }
  }

  /** An unsteady text is decided too early at its first form feed, or when too much of it is held; the
      deltas then go on from some place j before the closer. */
  lemma {:induction false} UnsteadyBreaks(text: string) returns (n: nat, j: nat)
    requires SayTag(text).Match? && !Steady(text)
    ensures n < TagEnd(text) && Decided(text[..n])
    ensures j + |CLOSER| <= TagEnd(text) && Rest(text[..n]) + text[n..] == text[j..]
  {
    hide Spaces, Closing;
    var i := Spaces(text);
    SpacesShape(text);
    if !NoFormFeed(text[..i]) {
      j := TrimLeftStopsAtFeed(text, i);
      n := j + 1;
      TagOfPrefix(text, n);
      assert Rest(text[..n]) == [FORM_FEED];
      FeedIsLast(text, j);
      assert text[j..] == [text[j]] + text[n..];
    } else {
      n, j := i + HOLD, i + |OPENER|;
      var p := text[..n];
      SpacesOfPrefix(text, n);
      assert p[..i] == text[..i];
      TrimLeftWithoutFeed(p);
      TagOfPrefix(text, n);
      TagStarts(text, n);
      assert Rest(p) == text[j..n];
      assert text[j..n] + text[n..] == text[j..];
    }
  }

  lemma {:induction false} TagStarts(text: string, n: nat)
    requires SayTag(text).Match? && Spaces(text) + HOLD == n <= |text|
    ensures var i := Spaces(text);
      OPENER <= text[..n][i..] && TrimOpener(text[..n][i..]) == text[i + |OPENER|..n]
  {
    hide Spaces, Closing;
    var i := Spaces(text);
    assert text[..n][i..] == text[i..][..HOLD];
    assert text[..n][i..][|OPENER|..] == text[i + |OPENER|..n];
  }

  lemma {:induction false} FeedIsLast(text: string, j: nat)
    requires j < |text| && TrimLeft(text[..j + 1]) == [FORM_FEED]
    ensures text[j] == FORM_FEED
  {
    var n := TrimLeftShape(text[..j + 1]);
    assert text[..j + 1][n..][0] == text[j];
  }

  /** White space cannot reach over the closer. */
  lemma {:induction false} SkipStopsAtTheCloser(text: string, j: nat)
    requires SayTag(text).Match? && j + |CLOSER| <= TagEnd(text)
    ensures |Skip(text[j..])| > |After(text)|
  {
    hide Spaces, Closing;
    var k := TagEnd(text) - |CLOSER|;
    var body := text[Spaces(text) + |OPENER|..];
    ClosingIsThere(body);
    assert body[Closing(body)] == '<' && text[k] == body[Closing(body)];
    var tail := text[j..];
    assert tail[k - j] == '<';
    SpacesAtMost(tail, k - j);
  }

  lemma {:induction false} SpacesAtMost(s: string, k: nat)
    requires k < |s| && !IsSpace(s[k])
    ensures Spaces(s) <= k
  {
    if k > 0 && IsSpace(s[0]) {
      SpacesAtMost(s[1..], k - 1);
    }
  }

  /** Every chunking of a text sends its say if and only if no form feed stands in front of the tag and the
      tag is within the limit; otherwise some chunking in two loses it. */
  lemma {:induction false} ChunksDoNotMatterToTheSay(text: string, spoken: string -> string)
    requires SayTag(text).Match? && spoken(SayTag(text).say) != ""
    ensures Steady(text)
       <==> forall chunks :: Joined(chunks) == text ==> Says(WriteAll(chunks, spoken).1, spoken(SayTag(text).say))
  {
    hide SayTag, Steady, WriteAll, Joined, Says, Rest, Deltas, Decided;
    var say := spoken(SayTag(text).say);
    if Steady(text) {
      forall chunks | Joined(chunks) == text ensures Says(WriteAll(chunks, spoken).1, say) {
        var _ := SteadyRound(chunks, spoken);
      }
    } else {
      var n, _ := UnsteadyBreaks(text);
      EarlyDecision(text, n, spoken, say);
    }
  }

  function Skip(s: string): string { s[Spaces(s)..] }

  /** What follows the tag. */
  function After(text: string): string
    requires SayTag(text).Match?
  {
    text[TagEnd(text)..]
  }

  /** What the deltas of a steady text spell, when the chunk that ended the tag went on for q characters. */
  function Spelled(rest: string, q: nat): string
    requires q <= |rest|
  {
    TrimOpener(Skip(rest[..q])) + rest[q..]
  }

  lemma {:induction false} SteadyText(chunks: seq<string>, spoken: string -> string) returns (q: nat)
    requires var text := Joined(chunks); SayTag(text).Match? && Steady(text)
    ensures var rest := After(Joined(chunks)); q <= |rest| && Deltas(WriteAll(chunks, spoken).1) == Spelled(rest, q)
  {
    hide SayTag, Steady, WriteAll, Joined, Says, Decided, Deltas, TrimOpener, Spaces;
    var n := SteadyRound(chunks, spoken);
    var text := Joined(chunks);
    var e := TagEnd(text);
    TagOfPrefix(text, n);
    q := n - e;
    var rest := After(text);
    assert rest[..q] == text[e..n];
    assert rest[q..] == text[n..];
    var length := SayTag(text[..n]).length;
    assert text[..n][length..] == Skip(rest[..q]);
  }

  lemma {:induction false} SkipDropped(s: string, j: nat)
    requires j <= Spaces(s)
    ensures Skip(s[j..]) == Skip(s)
  {
    if j > 0 {
      assert s[1..][j - 1..] == s[j..];
      SkipDropped(s[1..], j - 1);
    }
  }

  /** The deltas spell the text after the tag from some place in its leading white space; only where that
      text goes on with another opener, it may be that opener that is gone. */
  lemma {:induction false} SpelledAfterTheTag(rest: string, q: nat)
    requires q <= |rest|
    ensures || Skip(Spelled(rest, q)) == Skip(rest)
            || (OPENER <= Skip(rest) && Spelled(rest, q) == Skip(rest)[|OPENER|..])
  {
    hide Spaces;
    var s := Spaces(rest);
    SpacesOfPrefix(rest, q);
    SpacesShape(rest);
    if q <= s {
      assert Skip(rest[..q]) == "";
      assert Spelled(rest, q) == rest[q..];
      SkipDropped(rest, q);
    } else {
      var front := Skip(rest[..q]);
      assert front == rest[s..q];
      assert front + rest[q..] == rest[s..];
      if OPENER <= front {
        assert front[|OPENER|..] + rest[q..] == rest[s..][|OPENER|..];
      } else {
        SkipDropped(rest, s);
      }
    }
  }

  lemma {:induction false} RestOfPrefix(text: string, n: nat)
    requires SayTag(text).Match? && TagEnd(text) <= n <= |text|
    ensures Rest(text[..n]) == TrimOpener(Skip(After(text)[..n - TagEnd(text)]))
  {
    hide SayTag, TrimOpener, Spaces;
    TagOfPrefix(text, n);
    var e := TagEnd(text);
    assert After(text)[..n - e] == text[e..n];
    assert text[..n][SayTag(text[..n]).length..] == Skip(text[e..n]);
  }

  /** All chunkings of a text spell the same, up to the white space right after the tag, if and only if the
      text is steady and no second opener follows there. Otherwise two chunkings differ: that which cuts
      right after the tag, and one that decides too early or the whole text. */
  lemma {:induction false} ChunksDoNotMatterToTheText(text: string, spoken: string -> string)
    requires SayTag(text).Match?
    ensures Steady(text) && !(OPENER <= Skip(After(text)))
       <==> forall a, b :: Joined(a) == text && Joined(b) == text
              ==> Skip(Deltas(WriteAll(a, spoken).1)) == Skip(Deltas(WriteAll(b, spoken).1))
  {
    hide SayTag, Steady, WriteAll, Joined, Decided, Deltas, TrimOpener, Spaces, Skip, Spelled, After, Rest;
    var rest := After(text);
    if !Steady(text) {
      EarlyAndSplit(text, spoken);
    } else if OPENER <= Skip(rest) {
      WholeAndSplit(text, spoken);
    } else {
      forall a | Joined(a) == text ensures Skip(Deltas(WriteAll(a, spoken).1)) == Skip(rest) {
        var q := SteadyText(a, spoken);
        SpelledAfterTheTag(rest, q);
      }
    }
  }

  lemma {:induction false} EarlyAndSplit(text: string, spoken: string -> string)
    requires SayTag(text).Match? && !Steady(text)
    ensures exists a, b :: Joined(a) == text && Joined(b) == text
              && Skip(Deltas(WriteAll(a, spoken).1)) != Skip(Deltas(WriteAll(b, spoken).1))
  {
    hide SayTag, Steady, WriteAll, Joined, Decided, Deltas, Spaces, Rest;
    var n, j := UnsteadyBreaks(text);
    TwoChunks(text[..n], text[n..], spoken);
    assert text[..n] + text[n..] == text;
    CutAfterTheTag(text, spoken);
    SkipStopsAtTheCloser(text, j);
    assert |Skip(After(text))| <= |After(text)|;
    var early, split := [text[..n], text[n..]], [text[..TagEnd(text)], After(text)];
    assert Skip(Deltas(WriteAll(early, spoken).1)) != Skip(Deltas(WriteAll(split, spoken).1));
  }

  lemma {:induction false} InOneChunk(text: string, spoken: string -> string)
    requires SayTag(text).Match? && OPENER <= Skip(After(text))
    ensures Joined([text, ""]) == text
    ensures Deltas(WriteAll([text, ""], spoken).1) == Skip(After(text))[|OPENER|..]
  {
    hide SayTag, WriteAll, Joined, Decided, Deltas, Spaces, Rest, Skip;
    WholeIsDecided(text);
    TwoChunks(text, "", spoken);
    assert text + "" == text && Rest(text) + "" == Rest(text);
    RestOfPrefix(text, |text|);
    assert text[..|text|] == text;
    var rest := After(text);
    assert rest[..|text| - TagEnd(text)] == rest;
  }

  lemma {:induction false} CutAfterTheTag(text: string, spoken: string -> string)
    requires SayTag(text).Match?
    ensures var chunks := [text[..TagEnd(text)], After(text)];
      Joined(chunks) == text && Deltas(WriteAll(chunks, spoken).1) == After(text)
  {
    hide SayTag, WriteAll, Joined, Decided, Deltas, Spaces, Rest;
    var e, rest := TagEnd(text), After(text);
    TagOfPrefix(text, e);
    WholeIsDecided(text[..e]);
    TwoChunks(text[..e], rest, spoken);
    assert text[..e] + rest == text;
    RestOfPrefix(text, e);
    assert rest[..0] == "" && Skip("") == "";
    assert Rest(text[..e]) + rest == rest;
  }

  lemma {:induction false} WholeAndSplit(text: string, spoken: string -> string)
    requires SayTag(text).Match? && OPENER <= Skip(After(text))
    ensures var whole, split := [text, ""], [text[..TagEnd(text)], After(text)];
      && Joined(whole) == text && Joined(split) == text
      && Skip(Deltas(WriteAll(whole, spoken).1)) != Skip(Deltas(WriteAll(split, spoken).1))
  {
    hide SayTag, WriteAll, Joined, Decided, Deltas, Spaces, Rest;
    InOneChunk(text, spoken);
    CutAfterTheTag(text, spoken);
    var goesOn := Skip(After(text));
    assert |Skip(goesOn[|OPENER|..])| < |goesOn|;
  }

  // ---- Texts without a say -------------------------------------------------------------------------------

  lemma {:induction false} TrimLeftGoesOn(p: string, r: string)
    requires TrimLeft(p) != ""
    ensures TrimLeft(p + r) == TrimLeft(p) + r
  {
    if p != "" && IsTrimmed(p[0]) {
      assert (p + r)[1..] == p[1..] + r;
      TrimLeftGoesOn(p[1..], r);
    }
  }

  lemma {:induction false} TrimOpenerGoesOn(h: string, r: string)
    requires !(h <= OPENER && h != OPENER)
    ensures TrimOpener(h + r) == TrimOpener(h) + r && (OPENER <= h + r <==> OPENER <= h)
  {
    if OPENER <= h {
      assert (h + r)[|OPENER|..] == h[|OPENER|..] + r;
    } else if |h| >= |OPENER| {
      assert (h + r)[..|OPENER|] == h[..|OPENER|];
    } else {
      assert (h + r)[..|h|] == h;
    }
  }

  /** Where no say comes, what is decided stays decided, with the same text. */
  lemma {:induction false} DecidedGoesOn(p: string, r: string)
    requires SayTag(p + r).NoMatch? && Decided(p)
    ensures SayTag(p).NoMatch? && Decided(p + r) && Rest(p + r) == Rest(p) + r
  {
    assert (p + r)[..|p|] == p;
    if SayTag(p).Match? {
      TagStays(p + r, |p|);
    }
    var h := TrimLeft(p);
    hide SayTag;
    assert !(h <= OPENER) && !(OPENER <= h && |h| < HOLD);
    TrimLeftGoesOn(p, r);
    hide TrimLeft;
    TrimOpenerGoesOn(h, r);
    PrefixOfPrefix(h, r);
  }

  lemma {:induction false} PrefixOfPrefix(h: string, r: string)
    ensures h + r <= OPENER ==> h <= OPENER
  {
    if h + r <= OPENER {
      assert OPENER[..|h + r|] == h + r && OPENER[..|h|] == h;
    }
  }

  lemma {:induction false} JoinedSplits(chunks: seq<string>, k: nat)
    requires k <= |chunks|
    ensures Joined(chunks[..k]) <= Joined(chunks)
  {
    if k < |chunks| {
      var most := chunks[..|chunks| - 1];
      JoinedSplits(most, k);
      assert most[..k] == chunks[..k];
    } else {
      assert chunks[..k] == chunks;
    }
  }

  /** A text without a say: every chunking says nothing and spells the whole of it, or, while it may still
      open with a say, sends nothing at all; which of the two does not depend on the chunks. */
  lemma {:induction false} TextsWithoutASay(chunks: seq<string>, spoken: string -> string)
    requires SayTag(Joined(chunks)).NoMatch?
    ensures var (text, events) := (Joined(chunks), WriteAll(chunks, spoken).1);
      if Decided(text) then Silent(events) && Deltas(events) == Rest(text) else events == []
  {
    hide Decided, SayTag, Rest, WriteAll, Joined, OpenedAfter, Deltas;
    StreamingIsFaithful(chunks, spoken);
    OpenedIsFirst(chunks);
    var text := Joined(chunks);
    var k := OpenedAfter(chunks);
    if k > 0 {
      var head := Joined(chunks[..k]);
      JoinedSplits(chunks, k);
      assert text == head + text[|head|..];
      DecidedGoesOn(head, text[|head|..]);
      assert Spoken(head, spoken) == [];
    } else if chunks == [] {
      JoinedNothing();
      NothingIsUndecided();
    }
  }

  lemma {:induction false} NothingIsUndecided()
    ensures !Decided("")
  {
  }

  // ---- Texts whose chunks do matter ----------------------------------------------------------------------

  lemma {:induction false} TagOf(lead: string, say: string, after: string)
    requires Spaces(lead + OPENER + say + CLOSER + after) == |lead| && Closing(say + CLOSER + after) == |say|
    ensures var text := lead + OPENER + say + CLOSER + after;
      SayTag(text).Match? && SayTag(text).say == say && After(text) == after
  {
    hide Spaces, Closing;
    var text := lead + OPENER + say + CLOSER + after;
    assert text[|lead|..] == OPENER + (say + CLOSER + after);
    assert text[|lead| + |OPENER|..] == say + CLOSER + after;
    assert (say + CLOSER + after)[..|say|] == say;
  }

  /** "a" is closed at once. */
  lemma {:induction false} ClosingOfA(after: string)
    ensures Closing("a" + CLOSER + after) == 1
  {
    var s := "a" + CLOSER + after;
    assert s[0] == 'a' && s[1..] == CLOSER + after && CLOSER <= s[1..];
  }

  const FED := [FORM_FEED] + OPENER + "a" + CLOSER

  /** A form feed before the tag: said when the text comes whole, and lost when it comes after its first
      character. */
  lemma {:induction false} LostAfterAFormFeed(spoken: string -> string)
    requires spoken("a") != ""
    ensures Joined([FED, ""]) == FED && Says(WriteAll([FED, ""], spoken).1, spoken("a"))
    ensures Joined([FED[..1], FED[1..]]) == FED && !Says(WriteAll([FED[..1], FED[1..]], spoken).1, spoken("a"))
  {
    hide WriteAll, Joined, Deltas, Rest, Decided, Closing;
    assert FED == [FORM_FEED] + OPENER + "a" + CLOSER + "";
    ClosingOfA("");
    SpacesOfFed();
    TagOf([FORM_FEED], "a", "");
    hide SayTag;
    WholeIsDecided(FED);
    TwoChunks(FED, "", spoken);
    assert WriteAll([FED, ""], spoken).1[0] == Spoken(FED, spoken)[0];
    FeedDecides();
    EarlyDecision(FED, 1, spoken, spoken("a"));
  }

  lemma {:induction false} SpacesOfFed()
    ensures Spaces(FED) == 1
  {
    assert FED[1..] == OPENER + "a" + CLOSER;
    assert FED[1] == '<';
  }

  lemma {:induction false} FeedDecides()
    ensures FED[..1] == [FORM_FEED] && Decided(FED[..1])
  {
    assert TrimLeft([FORM_FEED]) == [FORM_FEED];
  }

  const TWICE := OPENER + "a" + CLOSER + OPENER + "b"

  /** A second opener after the tag: it is shown when the text is cut there, and gone when it comes whole. */
  lemma {:induction false} OpenerShownOrGone(spoken: string -> string)
    ensures Joined([TWICE, ""]) == TWICE && Deltas(WriteAll([TWICE, ""], spoken).1) == "b"
    ensures var cut := [OPENER + "a" + CLOSER, OPENER + "b"];
      Joined(cut) == TWICE && Deltas(WriteAll(cut, spoken).1) == OPENER + "b"
  {
    hide WriteAll, Joined, Deltas, Rest, Decided, Closing, SayTag;
    var after := OPENER + "b";
    assert TWICE == "" + OPENER + "a" + CLOSER + after;
    assert TWICE[0] == '<' && after[0] == '<';
    ClosingOfA(after);
    TagOf("", "a", after);
    assert Skip(after) == after && after[|OPENER|..] == "b";
    InOneChunk(TWICE, spoken);
    CutAfterTheTag(TWICE, spoken);
    assert TWICE[..TagEnd(TWICE)] == OPENER + "a" + CLOSER;
  }
}
