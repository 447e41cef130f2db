/**
 * How Bora talks to its model (rounds and replies in assistant.go): the model may call tools, every call
 * is answered, the bytes the tools return are budgeted, and the last round must answer. What the model
 * says and what the tools return is arbitrary. A text is its bytes, one character each.
 */
module ToolLoop {

  import opened Wrappers

  const MAX_ROUNDS := 6
  const TOOL_BUDGET := 48 * 1024
  const RESULT_LIMIT := 24 * 1024
  const TRUNCATED := "\n\U{00E2}\U{0080}\U{00A6} (truncated)"
  const ANSWER_NOW := "Answer now with what you found; do not call more tools."
  const BUDGET_SPENT := "error: tool budget spent; answer with what you found"
  const OUT_OF_STEPS := "I ran out of steps before finding the answer. Try a narrower question."

  datatype Call = Call(id: string, name: string, args: string)

  datatype Message = Plain(text: string) | User(text: string) | Assistant(content: string, calls: seq<Call>)
                   | Tool(result: string, id: string)

  /** One answer of the model: it fails after streaming some text, or says something and calls tools. */
  datatype Answer = Failed(streamed: string) | Said(content: string, calls: seq<Call>)

  datatype Back = Back(question: string, choices: seq<string>)

  datatype Outcome = Error | Asked(back: Back) | Content(text: string)

  /** The code around the loop. What is asked of the model or a tool comes with all that was said before,
      which never repeats, so that each request may have its own outcome. */
  datatype World = World(model: seq<Message> -> Answer,
                         askedBack: seq<Call> -> Option<Back>,
                         tools: set<string>,
                         run: (seq<Message>, Call) -> string,
                         redact: string -> string,
                         runeWidth: string -> nat,
                         trim: string -> string)

  // ---- clip ----------------------------------------------------------------------------------------------

  /** Without the bytes that are no part of a valid character. */
  function ToValid(w: World, text: string): (valid: string)
    ensures |valid| <= |text|
  {
    if text == "" then ""
    else
      var n := w.runeWidth(text);
      if 0 < n <= |text| then text[..n] + ToValid(w, text[n..]) else ToValid(w, text[1..])
  }

  function Clip(w: World, text: string): (clipped: string)
    ensures |clipped| <= RESULT_LIMIT + |TRUNCATED|
    ensures var whole := w.redact(text);
      if |whole| <= RESULT_LIMIT then clipped == whole
      else |clipped| >= |TRUNCATED| && clipped[|clipped| - |TRUNCATED|..] == TRUNCATED
  {
    var text := w.redact(text);
    if |text| > RESULT_LIMIT then ToValid(w, text[..RESULT_LIMIT]) + TRUNCATED else text
  }

  /** How the bytes of a text are read: as characters, and as bytes that begin none. */
  datatype Piece = Character(bytes: string) | Bad(byte: char)

  function Spelled(pieces: seq<Piece>): string {
    if pieces == [] then ""
    else (if pieces[0].Bad? then [pieces[0].byte] else pieces[0].bytes) + Spelled(pieces[1..])
  }

  function Characters(pieces: seq<Piece>): string {
    if pieces == [] then "" else (if pieces[0].Bad? then "" else pieces[0].bytes) + Characters(pieces[1..])
  }

  ghost predicate ReadAs(w: World, pieces: seq<Piece>) {
    forall k :: 0 <= k < |pieces| ==>
      var text := Spelled(pieces[k..]);
      var n := w.runeWidth(text);
      if pieces[k].Bad? then !(0 < n <= |text|) else n == |pieces[k].bytes| > 0
  }

  lemma {:induction false} KeepsTheCharacters(w: World, pieces: seq<Piece>)
    requires ReadAs(w, pieces)
    ensures ToValid(w, Spelled(pieces)) == Characters(pieces)
  {
    if pieces != [] {
      var text := Spelled(pieces);
      assert pieces[0..] == pieces;
      forall k | 0 <= k < |pieces[1..]|
        ensures pieces[1..][k..] == pieces[k + 1..] && pieces[1..][k] == pieces[k + 1]
      {
      }
      KeepsTheCharacters(w, pieces[1..]);
      assert text[if pieces[0].Bad? then 1 else |pieces[0].bytes|..] == Spelled(pieces[1..]);
    }
  }

  /** Of a long text the model reads every character in its first 24 KiB, in order, and then the mark. */
  lemma {:induction false} ClipKeepsTheCharacters(w: World, text: string, pieces: seq<Piece>)
    requires |w.redact(text)| > 24 * 1024
    requires ReadAs(w, pieces) && w.redact(text)[..24 * 1024] == Spelled(pieces)
    ensures Clip(w, text) == Characters(pieces) + TRUNCATED
  {
    hide ReadAs, Spelled, Characters, ToValid;
    KeepsTheCharacters(w, pieces);
  }

  // ---- replies -------------------------------------------------------------------------------------------

  function RunTool(w: World, past: seq<Message>, call: Call): string {
    if call.name in w.tools then w.run(past, call) else "error: unknown tool " + call.name
  }

  /** What the tool answers of a conversation say. */
  function Results(messages: seq<Message>): seq<string> {
    if messages == [] then []
    else
      var last := messages[|messages| - 1];
      Results(messages[..|messages| - 1]) + if last.Tool? then [last.result] else []
  }

  function Total(texts: seq<string>): nat {
    if texts == [] then 0 else Total(texts[..|texts| - 1]) + |texts[|texts| - 1]|
  }

  /** The bytes of all tool answers in a conversation. */
  function Bytes(messages: seq<Message>): nat { Total(Results(messages)) }

  /** The answer due to a call after all that was said before it. */
  function Due(w: World, past: seq<Message>, call: Call, budget: int): Message {
    Tool(Clip(w, if Bytes(past) < budget then RunTool(w, past, call) else BUDGET_SPENT), call.id)
  }

  /** Every call is answered in its place. */
  ghost predicate Replied(w: World, past: seq<Message>, calls: seq<Call>, replies: seq<Message>, budget: int) {
    && |replies| == |calls|
    && forall i :: 0 <= i < |calls| ==> replies[i] == Due(w, past + replies[..i], calls[i], budget)
  }

  lemma {:induction false} BytesSnoc(messages: seq<Message>, m: Message)
    ensures Results(messages + [m]) == Results(messages) + if m.Tool? then [m.result] else []
    ensures Bytes(messages + [m]) == Bytes(messages) + if m.Tool? then |m.result| else 0
  {
    assert (messages + [m])[..|messages|] == messages;
    if m.Tool? {
      assert (Results(messages) + [m.result])[..|Results(messages)|] == Results(messages);
    } else {
      assert Results(messages) + [] == Results(messages);
    }
  }

  /** What tools returned that were run: answers made while the budget was not spent. */
  function Ran(messages: seq<Message>, budget: int): seq<string> {
    if messages == [] then []
    else
      var before := messages[..|messages| - 1];
      var last := messages[|messages| - 1];
      Ran(before, budget) + if last.Tool? && Bytes(before) < budget then [last.result] else []
  }

  lemma {:induction false} RanSnoc(messages: seq<Message>, m: Message, budget: int)
    ensures Ran(messages + [m], budget)
         == Ran(messages, budget) + if m.Tool? && Bytes(messages) < budget then [m.result] else []
  {
    assert (messages + [m])[..|messages|] == messages;
  }

  lemma {:induction false} RepliedSnoc(w: World, past: seq<Message>, calls: seq<Call>, replies: seq<Message>,
                                       budget: int, reply: Message)
    requires |replies| < |calls| && Replied(w, past, calls[..|replies|], replies, budget)
    requires reply == Due(w, past + replies, calls[|replies|], budget)
    ensures Replied(w, past, calls[..|replies| + 1], replies + [reply], budget)
  {
    hide Due;
    var more, n := replies + [reply], |replies|;
    assert more[..n] == replies && forall j :: 0 <= j < n ==> more[..j] == replies[..j];
  }

  /** One more answer, and what is known of the conversation with it. */
  lemma {:induction false} ReplyMore(past: seq<Message>, replies: seq<Message>, ran: seq<string>, budget: int,
                                     reply: Message)
    requires reply.Tool? && Ran(past + replies, budget) == Ran(past, budget) + ran
    ensures Bytes(past + (replies + [reply])) == Bytes(past + replies) + |reply.result|
    ensures Ran(past + (replies + [reply]), budget)
         == Ran(past, budget) + (ran + if Bytes(past + replies) < budget then [reply.result] else [])
  {
    hide Bytes, Ran;
    assert past + (replies + [reply]) == (past + replies) + [reply];
    BytesSnoc(past + replies, reply);
    RanSnoc(past + replies, reply, budget);
  }

  /** What the answer due says, case by case. */
  lemma {:induction false} DueSays(w: World, past: seq<Message>, call: Call, budget: int)
    ensures var reply := Due(w, past, call, budget);
      && reply.Tool? && reply.id == call.id
      && reply.result == Clip(w, if Bytes(past) >= budget then BUDGET_SPENT
                                 else if call.name !in w.tools then "error: unknown tool " + call.name
                                 else w.run(past, call))
  {
    hide Bytes, Clip;
  }

  /** The budget passed in is what is left of the whole. Besides the answers: what was run. */
  method Replies(w: World, past: seq<Message>, calls: seq<Call>, left: int)
    returns (replies: seq<Message>, used: nat, ran: seq<string>)
    ensures |replies| == |calls|
    ensures var budget := Bytes(past) + left;
      forall i {:trigger replies[..i]} :: 0 <= i < |calls| ==>
        var before := past + replies[..i];
        && replies[i].Tool? && replies[i].id == calls[i].id
        && replies[i].result == Clip(w, if Bytes(before) >= budget then BUDGET_SPENT
                                        else if calls[i].name !in w.tools then "error: unknown tool " + calls[i].name
                                        else w.run(before, calls[i]))
    ensures Replied(w, past, calls, replies, Bytes(past) + left)
    ensures used == Bytes(past + replies) - Bytes(past)
    ensures Ran(past + replies, Bytes(past) + left) == Ran(past, Bytes(past) + left) + ran
  {
    hide Bytes, Clip, Ran, RunTool;
    ghost var budget := Bytes(past) + left;
    replies, used, ran := [], 0, [];
    assert past + [] == past && Ran(past, budget) + [] == Ran(past, budget);
    for i := 0 to |calls|
      invariant |replies| == i && used == Bytes(past + replies) - Bytes(past)
      invariant Replied(w, past, calls[..i], replies, budget)
      invariant Ran(past + replies, budget) == Ran(past, budget) + ran
    {
      hide Replied;
      var call := calls[i];
      var result := BUDGET_SPENT;
      ghost var earlier := ran;
      if used < left {
        result := RunTool(w, past + replies, call);
        ran := ran + [Clip(w, result)];
      }
      result := Clip(w, result);
      RepliedSnoc(w, past, calls, replies, budget, Tool(result, call.id));
      ReplyMore(past, replies, earlier, budget, Tool(result, call.id));
      assert earlier + [] == earlier;
      used := used + |result|;
      replies := replies + [Tool(result, call.id)];
    }
    assert calls[..|calls|] == calls;
    forall i | 0 <= i < |calls| {
      DueSays(w, past + replies[..i], calls[i], budget);
    }
  }

  // ---- Histories a model server accepts ------------------------------------------------------------------

  ghost predicate Paired(calls: seq<Call>, replies: seq<Message>) {
    && |replies| == |calls|
    && forall i :: 0 <= i < |calls| ==> replies[i].Tool? && replies[i].id == calls[i].id
  }

  /** Each assistant message with n calls is followed at once by n answers with the same ids in order, and
      there are no other answers. */
  ghost predicate Answered(messages: seq<Message>)
    decreases |messages|
  {
    if messages == [] then true
    else
      match messages[0]
      case Tool(_, _) => false
      case Assistant(_, calls) =>
        && |messages| > |calls|
        && Paired(calls, messages[1..1 + |calls|])
        && Answered(messages[1 + |calls|..])
      case _ => Answered(messages[1..])
  }

  /** What a conversation starts with: no calls yet, and no answers. */
  ghost predicate NoCalls(messages: seq<Message>) {
    forall m :: m in messages ==> !m.Tool? && (m.Assistant? ==> m.calls == [])
  }

  lemma {:induction false} NoCallsAnswered(messages: seq<Message>)
    requires NoCalls(messages)
    ensures Answered(messages)
  {
    if messages != [] {
      NoCallsAnswered(messages[1..]);
    }
  }

  lemma {:induction false} NothingRunYet(messages: seq<Message>, budget: int)
    requires NoCalls(messages)
    ensures Results(messages) == [] && Bytes(messages) == 0 && Ran(messages, budget) == []
  {
    if messages != [] {
      NothingRunYet(messages[..|messages| - 1], budget);
    }
  }

  /** One step of reading a history. */
  lemma {:induction false} AnsweredFrom(messages: seq<Message>, n: nat)
    requires messages != [] && !messages[0].Tool?
    requires n == if messages[0].Assistant? then 1 + |messages[0].calls| else 1
    ensures Answered(messages) <==>
            && n <= |messages| && Answered(messages[n..])
            && (messages[0].Assistant? ==> Paired(messages[0].calls, messages[1..n]))
  {
    hide Paired;
  }

  lemma {:induction false} NoAnswers()
    ensures Answered([])
  {
  }

  lemma {:induction false} NotATool(messages: seq<Message>)
    requires Answered(messages) && messages != []
    ensures !messages[0].Tool?
  {
  }

  lemma {:induction false} AnsweredConcat(a: seq<Message>, b: seq<Message>)
    requires Answered(a) && Answered(b)
    ensures Answered(a + b)
    decreases |a|
  {
    hide Answered, Paired;
    if a == [] {
      assert a + b == b;
    } else {
      NotATool(a);
      var n := if a[0].Assistant? then 1 + |a[0].calls| else 1;
      AnsweredFrom(a, n);
      AnsweredConcat(a[n..], b);
      assert (a + b)[n..] == a[n..] + b && (a + b)[1..n] == a[1..n];
      AnsweredFrom(a + b, n);
    }
  }

  lemma {:induction false} RoundAnswered(w: World, past: seq<Message>, m: Message, replies: seq<Message>, budget: int)
    requires m.Assistant? && Replied(w, past, m.calls, replies, budget)
    ensures Answered([m] + replies)
  {
    hide Answered, Bytes, Clip, RunTool;
    var all := [m] + replies;
    assert all[1..1 + |m.calls|] == replies && all[1 + |m.calls|..] == [];
    assert Paired(m.calls, replies);
    NoAnswers();
    AnsweredFrom(all, 1 + |m.calls|);
  }

  // ---- The budget ----------------------------------------------------------------------------------------

  ghost predicate Clipped(messages: seq<Message>) {
    forall m :: m in messages && m.Tool? ==> |m.result| <= RESULT_LIMIT + |TRUNCATED|
  }

  /** The tools run return less than the budget and one clipped result, and nothing when it is not positive. */
  lemma {:induction false} RanStaysBelow(messages: seq<Message>, budget: int)
    requires Clipped(messages)
    ensures Total(Ran(messages, budget)) < (if budget > 0 then budget else 0) + RESULT_LIMIT + |TRUNCATED|
    ensures budget <= 0 ==> Ran(messages, budget) == []
    ensures Bytes(messages) < budget ==> Ran(messages, budget) == Results(messages)
  {
    if messages != [] {
      hide Bytes;
      var before, last := messages[..|messages| - 1], messages[|messages| - 1];
      RanStaysBelow(before, budget);
      assert before + [last] == messages;
      RanSnoc(before, last, budget);
      BytesSnoc(before, last);
      BytesAreTotal(before);
      if last.Tool? && Bytes(before) < budget {
        TotalSnoc(Ran(before, budget), last.result);
      } else {
        assert Ran(before, budget) + [] == Ran(before, budget) && Results(before) + [] == Results(before);
      }
    }
  }

  lemma {:induction false} TotalSnoc(texts: seq<string>, text: string)
    ensures Total(texts + [text]) == Total(texts) + |text|
  {
    assert (texts + [text])[..|texts|] == texts;
  }

  lemma {:induction false} BytesAreTotal(messages: seq<Message>)
    ensures Bytes(messages) == Total(Results(messages))
  {
  }

  // ---- rounds --------------------------------------------------------------------------------------------

  function Budget(asked: int): int { if asked != 0 then asked else TOOL_BUDGET }

  /** A request that leads to another: the model's message, an answer to each of its calls, and, when the
      rounds or the budget are used up, the order to answer. */
  ghost predicate Follows(w: World, round: nat, h: seq<Message>, next: seq<Message>, budget: int) {
    && w.model(h).Said?
    && var Said(content, calls) := w.model(h);
    && calls != []
    && exists replies ::
         && Replied(w, h + [Assistant(content, calls)], calls, replies, budget)
         && var all := h + [Assistant(content, calls)] + replies;
         && next == all + if round >= MAX_ROUNDS || Bytes(all) >= budget then [User(ANSWER_NOW)] else []
  }

  /** The last request is the one told to answer exactly when the rounds or the budget were used up. */
  ghost predicate MustAnswer(rounds: nat, h: seq<Message>, budget: int) {
    rounds > MAX_ROUNDS || (rounds > 1 && Bytes(h) >= budget)
  }

  ghost predicate Chain(w: World, requests: seq<seq<Message>>, budget: int) {
    forall k :: 0 < k < |requests| ==>
      Follows(w, k, requests[k - 1], requests[k], budget) && !MustAnswer(k, requests[k - 1], budget)
  }

  ghost predicate Sound(messages: seq<Message>) { Answered(messages) && Clipped(messages) }

  lemma {:induction false} RepliesAreClipped(w: World, past: seq<Message>, calls: seq<Call>, replies: seq<Message>,
                                             budget: int)
    requires Replied(w, past, calls, replies, budget)
    ensures Clipped(replies)
  {
    hide Bytes, RunTool, Clip;
    forall i | 0 <= i < |replies|
      ensures |replies[i].result| <= RESULT_LIMIT + |TRUNCATED|
    {
      assert replies[i] == Due(w, past + replies[..i], calls[i], budget);
    }
  }

  lemma {:induction false} SoundConcat(a: seq<Message>, b: seq<Message>)
    requires Sound(a) && Sound(b)
    ensures Sound(a + b)
  {
    hide Answered;
    AnsweredConcat(a, b);
  }

  lemma {:induction false} RoundIsSound(w: World, past: seq<Message>, m: Message, replies: seq<Message>, budget: int)
    requires m.Assistant? && Replied(w, past, m.calls, replies, budget)
    ensures Sound([m] + replies)
  {
    RoundAnswered(w, past, m, replies, budget);
    RepliesAreClipped(w, past, m.calls, replies, budget);
    hide Answered, Replied;
  }

  lemma {:induction false} FollowsSoundly(w: World, round: nat, h: seq<Message>, next: seq<Message>, budget: int)
    requires Sound(h) && Follows(w, round, h, next, budget)
    ensures Sound(next) && h < next
  {
    hide Sound, Bytes, Replied;
    var Said(content, calls) := w.model(h);
    var m := Assistant(content, calls);
    var replies :|
         && Replied(w, h + [m], calls, replies, budget)
         && var all := h + [m] + replies;
         && next == all + if round >= MAX_ROUNDS || Bytes(all) >= budget then [User(ANSWER_NOW)] else [];
    RoundIsSound(w, h + [m], m, replies, budget);
    SoundConcat(h, [m] + replies);
    var all := h + [m] + replies;
    assert h + ([m] + replies) == all && all + [] == all;
    OneUser();
    SoundConcat(all, [User(ANSWER_NOW)]);
  }

  lemma {:induction false} OneUser()
    ensures Sound([User(ANSWER_NOW)])
  {
  }

  /** All requests of a chain are accepted, each goes on from the one before, and there are at most seven. */
  lemma {:induction false} ChainsAreSoundAndShort(w: World, requests: seq<seq<Message>>, budget: int)
    requires requests != [] && NoCalls(requests[0]) && Chain(w, requests, budget)
    ensures forall k :: 0 <= k < |requests| ==> Sound(requests[k])
    ensures forall k :: 0 < k < |requests| ==> requests[k - 1] < requests[k]
    ensures |requests| <= MAX_ROUNDS + 1
  {
    hide Sound, Follows;
    var n := |requests| - 1;
    if n == 0 {
      SoundStart(requests[0]);
    } else {
      ChainsAreSoundAndShort(w, requests[..n], budget);
      assert requests[..n][n - 1] == requests[n - 1];
      FollowsSoundly(w, n, requests[n - 1], requests[n], budget);
      assert !MustAnswer(n, requests[n - 1], budget);
    }
  }

  lemma {:induction false} SoundStart(messages: seq<Message>)
    requires NoCalls(messages)
    ensures Sound(messages)
  {
    hide Answered;
    NoCallsAnswered(messages);
  }

  /** Asks the model until it answers or asks back. Shown is the text streamed since the last reset, and ran is
      what the tools returned that were run. */
  method Rounds(w: World, start: seq<Message>, clarify: bool, asked: int)
    returns (outcome: Outcome, requests: seq<seq<Message>>, shown: string, ran: seq<string>)
    requires NoCalls(start)
    ensures 1 <= |requests| <= 7 && requests[0] == start
    ensures Chain(w, requests, Budget(asked))
    ensures forall k :: 0 <= k < |requests| - 1 ==>
              var answer := w.model(requests[k]);
              && answer.Said? && answer.calls != [] && !(clarify && w.askedBack(answer.calls).Some?)
              && (k > 0 ==> Bytes(requests[k]) < Budget(asked))
    ensures var rounds := |requests|;
      match w.model(requests[rounds - 1])
      case Failed(streamed) => outcome == Error && shown == streamed
      case Said(content, calls) =>
        && shown == content
        && if clarify && w.askedBack(calls).Some? then outcome == Asked(w.askedBack(calls).value)
           else
             && outcome == Content(if w.trim(content) != "" then w.trim(content) else OUT_OF_STEPS)
             && (calls == [] || rounds == 7 || (rounds > 1 && Bytes(requests[rounds - 1]) >= Budget(asked)))
    ensures ran == Ran(requests[|requests| - 1], Budget(asked))
    ensures Total(ran) < (if Budget(asked) > 0 then Budget(asked) else 0) + RESULT_LIMIT + |TRUNCATED|
  {
    hide Bytes, Replied, NoCalls, Ran, Follows, Chain, Total, Clip, WentOn;
    var budget := Budget(asked);
    var used, final, messages, round := 0, false, start, 1;
    shown, requests, ran := "", [], [];
    NothingRunYet(start, budget);
    OneRequest(w, start, budget);
    ghost var earlier := [];
    while true
      invariant round == |requests| + 1
      invariant requests == [] ==> messages == start && !final
      invariant requests != [] ==> requests[0] == start
      invariant Chain(w, requests + [messages], budget)
      invariant WentOn(w, clarify, requests, budget)
      invariant used == Bytes(messages) && final == MustAnswer(round, messages, budget)
      invariant ran == Ran(messages, budget)
      invariant shown == ""
      invariant round <= MAX_ROUNDS + 1
      decreases MAX_ROUNDS + 1 - round
    {
      earlier, requests := requests, requests + [messages];
      var answer := w.model(messages);
      shown := shown + if answer.Said? then answer.content else answer.streamed;
      if answer.Failed? {
        outcome := Error;
        break;
      }
      var Said(content, calls) := answer;
      if w.askedBack(calls).Some? && clarify {
        outcome := Asked(w.askedBack(calls).value);
        break;
      }
      if |calls| == 0 || final {
        outcome := Content(if w.trim(content) != "" then w.trim(content) else OUT_OF_STEPS);
        break;
      }
      if content != "" {
        shown := "";
      }
      ghost var h := messages;
      var m := Assistant(content, calls);
      assert Bytes(messages + [m]) == Bytes(messages) && Ran(messages + [m], budget) == ran by {
        BytesSnoc(messages, m);
        RanSnoc(messages, m, budget);
        assert ran + [] == ran;
      }
      var replies, spent, run := Replies(w, messages + [m], calls, budget - used);
      messages, used, ran := messages + [m] + replies, used + spent, ran + run;
      ghost var all := messages;
      if round >= MAX_ROUNDS || used >= budget {
        final, messages := true, messages + [User(ANSWER_NOW)];
      }
      NextRequest(w, clarify, requests, h, replies, all, messages, budget);
      round := round + 1;
    }
    RunsAreBounded(w, requests, start, budget);
    WentOnSoFar(w, clarify, earlier, requests[|requests| - 1], budget);
  }

  ghost predicate WentOn(w: World, clarify: bool, requests: seq<seq<Message>>, budget: int) {
    forall k :: 0 <= k < |requests| ==>
      var answer := w.model(requests[k]);
      && answer.Said? && answer.calls != [] && !(clarify && w.askedBack(answer.calls).Some?)
      && (k > 0 ==> Bytes(requests[k]) < budget)
  }

  lemma {:induction false} WentOnSoFar(w: World, clarify: bool, earlier: seq<seq<Message>>, last: seq<Message>,
                                       budget: int)
    requires WentOn(w, clarify, earlier, budget)
    ensures var requests := earlier + [last];
      forall k :: 0 <= k < |requests| - 1 ==>
        var answer := w.model(requests[k]);
        && answer.Said? && answer.calls != [] && !(clarify && w.askedBack(answer.calls).Some?)
        && (k > 0 ==> Bytes(requests[k]) < budget)
  {
    hide Bytes;
  }

  lemma {:induction false} WentOnSnoc(w: World, clarify: bool, requests: seq<seq<Message>>, budget: int)
    requires requests != [] && WentOn(w, clarify, requests[..|requests| - 1], budget)
    requires var h := requests[|requests| - 1];
      && w.model(h).Said? && w.model(h).calls != [] && !(clarify && w.askedBack(w.model(h).calls).Some?)
      && (|requests| > 1 ==> Bytes(h) < budget)
    ensures WentOn(w, clarify, requests, budget)
  {
    hide Bytes;
    var n := |requests| - 1;
    assert forall k :: 0 <= k < n ==> requests[k] == requests[..n][k];
  }

  /** The request after a message with calls that may still be answered. */
  lemma {:induction false} NextRequest(w: World, clarify: bool, requests: seq<seq<Message>>, h: seq<Message>,
                                       replies: seq<Message>, all: seq<Message>, next: seq<Message>, budget: int)
    requires requests != [] && requests[|requests| - 1] == h && Chain(w, requests, budget)
    requires WentOn(w, clarify, requests[..|requests| - 1], budget) && !MustAnswer(|requests|, h, budget)
    requires var answer := w.model(h);
      && answer.Said? && answer.calls != [] && !(clarify && w.askedBack(answer.calls).Some?)
      && var m := Assistant(answer.content, answer.calls);
      && all == h + [m] + replies && Replied(w, h + [m], m.calls, replies, budget)
    requires next == if |requests| >= MAX_ROUNDS || Bytes(all) >= budget then all + [User(ANSWER_NOW)] else all
    ensures Chain(w, requests + [next], budget) && WentOn(w, clarify, requests, budget)
    ensures Bytes(next) == Bytes(all) && Ran(next, budget) == Ran(all, budget)
  {
    hide Bytes, Replied, Chain, Follows, Ran, WentOn;
    assert all + [] == all && Ran(all, budget) + [] == Ran(all, budget);
    WentOnSnoc(w, clarify, requests, budget);
    FollowsWith(w, |requests|, h, replies, next, budget);
    Extend(w, requests, next, budget);
    BytesSnoc(all, User(ANSWER_NOW));
    RanSnoc(all, User(ANSWER_NOW), budget);
  }

  lemma {:induction false} RunsAreBounded(w: World, requests: seq<seq<Message>>, start: seq<Message>, budget: int)
    requires requests != [] && requests[0] == start && NoCalls(start) && Chain(w, requests, budget)
    ensures var ran := Ran(requests[|requests| - 1], budget);
      Total(ran) < (if budget > 0 then budget else 0) + RESULT_LIMIT + |TRUNCATED|
  {
    hide Chain, Answered, Ran, Clipped, NoCalls;
    ChainsAreSoundAndShort(w, requests, budget);
    RanStaysBelow(requests[|requests| - 1], budget);
  }

  lemma {:induction false} OneRequest(w: World, start: seq<Message>, budget: int)
    ensures Chain(w, [] + [start], budget) && forall clarify :: WentOn(w, clarify, [], budget)
  {
  }

  lemma {:induction false} FollowsWith(w: World, round: nat, h: seq<Message>, replies: seq<Message>,
                                       next: seq<Message>, budget: int)
    requires w.model(h).Said? && w.model(h).calls != []
    requires var m := Assistant(w.model(h).content, w.model(h).calls);
      && Replied(w, h + [m], m.calls, replies, budget)
      && var all := h + [m] + replies;
      && next == all + if round >= MAX_ROUNDS || Bytes(all) >= budget then [User(ANSWER_NOW)] else []
    ensures Follows(w, round, h, next, budget)
  {
    hide Bytes, Replied;
  }

  lemma {:induction false} Extend(w: World, requests: seq<seq<Message>>, next: seq<Message>, budget: int)
    requires requests != [] && Chain(w, requests, budget)
    requires Follows(w, |requests|, requests[|requests| - 1], next, budget)
    requires !MustAnswer(|requests|, requests[|requests| - 1], budget)
    ensures Chain(w, requests + [next], budget)
  {
    hide Follows, MustAnswer;
  }

  /** For every model and every tool: at most seven requests, each one accepted, and tools that return less
      than the budget and one clipped result. */
  lemma {:induction false} LoopIsBounded(w: World, requests: seq<seq<Message>>, asked: int)
    requires requests != [] && NoCalls(requests[0]) && Chain(w, requests, Budget(asked))
    ensures |requests| <= 7
    ensures forall k :: 0 <= k < |requests| ==> Answered(requests[k])
    ensures var budget := if asked != 0 then asked else 48 * 1024;
      Total(Ran(requests[|requests| - 1], budget)) < (if budget > 0 then budget else 0) + RESULT_LIMIT + |TRUNCATED|
  {
    hide Chain, Answered, Ran, Clipped, NoCalls;
    ChainsAreSoundAndShort(w, requests, Budget(asked));
    RunsAreBounded(w, requests, requests[0], Budget(asked));
  }

  // ---- What each answer says -----------------------------------------------------------------------------

  /** The answer at i is to a call of the last message before it that is no answer. */
  ghost predicate IsOwed(w: World, messages: seq<Message>, i: nat, j: nat, budget: int) {
    && j < i < |messages| && messages[j].Assistant? && i - j <= |messages[j].calls|
    && (forall n :: j < n <= i ==> messages[n].Tool?)
    && messages[i] == Due(w, messages[..i], messages[j].calls[i - j - 1], budget)
  }

  lemma {:induction false} OwedInRound(w: World, round: nat, h: seq<Message>, next: seq<Message>, budget: int, i: nat)
    requires Follows(w, round, h, next, budget) && |h| <= i < |next| && next[i].Tool?
    ensures IsOwed(w, next, i, |h|, budget)
  {
    hide Replied, Bytes, IsOwed;
    var Said(content, calls) := w.model(h);
    var m := Assistant(content, calls);
    var replies :|
         && Replied(w, h + [m], calls, replies, budget)
         && var all := h + [m] + replies;
         && next == all + if round >= MAX_ROUNDS || Bytes(all) >= budget then [User(ANSWER_NOW)] else [];
    var tail := next[|h| + 1 + |replies|..];
    assert next == h + [m] + replies + tail;
    OwedAmong(w, h, m, replies, tail, budget, i);
  }

  lemma {:induction false} OwedAmong(w: World, h: seq<Message>, m: Message, replies: seq<Message>, tail: seq<Message>,
                                     budget: int, i: nat)
    requires m.Assistant? && Replied(w, h + [m], m.calls, replies, budget)
    requires |h| < i <= |h| + |replies|
    ensures IsOwed(w, h + [m] + replies + tail, i, |h|, budget)
  {
    hide Due;
    var next := h + [m] + replies + tail;
    RepliesAreTools(w, h + [m], m.calls, replies, budget);
    var a := i - |h| - 1;
    assert next[|h|] == m && next[..i] == h + [m] + replies[..a];
    forall n | |h| < n <= i
      ensures next[n] == replies[n - |h| - 1]
    {
    }
  }

  lemma {:induction false} RepliesAreTools(w: World, past: seq<Message>, calls: seq<Call>, replies: seq<Message>,
                                           budget: int)
    requires Replied(w, past, calls, replies, budget)
    ensures forall i :: 0 <= i < |replies| ==> replies[i].Tool?
  {
    hide Bytes, Clip, RunTool;
    forall i | 0 <= i < |replies|
      ensures replies[i].Tool?
    {
      assert replies[i] == Due(w, past + replies[..i], calls[i], budget);
    }
  }

  lemma {:induction false} OwedInChain(w: World, requests: seq<seq<Message>>, budget: int, k: nat, i: nat)
    returns (j: nat)
    requires k < |requests| && NoCalls(requests[0]) && Chain(w, requests, budget)
    requires i < |requests[k]| && requests[k][i].Tool?
    ensures IsOwed(w, requests[k], i, j, budget)
  {
    hide Due, Bytes, Replied;
    if k > 0 {
      var h, next := requests[k - 1], requests[k];
      assert Follows(w, k, h, next, budget);
      if i < |h| {
        j := OwedInChain(w, requests, budget, k - 1, i);
        assert next[..|h|] == h && next[..i] == h[..i];
      } else {
        OwedInRound(w, k, h, next, budget, i);
        j := |h|;
      }
    }
  }

  /** Whatever the model and the tools say, each answer in each request is the one its call is owed: while the
      answers before it are within the budget, what the tool returns, or that there is no such tool; after
      that the refusal. The call is found by counting from the last message that is not an answer. */
  lemma {:induction false} EveryAnswerIsOwed(w: World, requests: seq<seq<Message>>, budget: int, k: nat, i: nat)
    requires k < |requests| && NoCalls(requests[0]) && Chain(w, requests, budget)
    requires i < |requests[k]| && requests[k][i].Tool?
    ensures exists j :: 0 <= j < i && requests[k][j].Assistant? && (forall n :: j < n <= i ==> requests[k][n].Tool?)
              && i - j <= |requests[k][j].calls|
              && var past, call := requests[k][..i], requests[k][j].calls[i - j - 1];
              && requests[k][i].id == call.id
              && (Bytes(past) < budget && call.name in w.tools ==>
                    requests[k][i].result == Clip(w, w.run(past, call)))
              && (Bytes(past) < budget && call.name !in w.tools ==>
                    requests[k][i].result == Clip(w, "error: unknown tool " + call.name))
              && (Bytes(past) >= budget ==> requests[k][i].result == Clip(w, BUDGET_SPENT))
  {
    hide Bytes, Clip, Chain, NoCalls, Due;
    var j := OwedInChain(w, requests, budget, k, i);
    DueSays(w, requests[k][..i], requests[k][j].calls[i - j - 1], budget);
  }

  /** The order to answer ends the seventh request, and one whose tools have spent the budget, and no other. */
  lemma {:induction false} ToldInTime(w: World, requests: seq<seq<Message>>, budget: int, k: nat)
    requires 0 < k < |requests| && Chain(w, requests, budget)
    ensures var request := requests[k];
      request != [] && (request[|request| - 1] == User(ANSWER_NOW) <==> k >= 6 || Bytes(request) >= budget)
  {
    hide Bytes, Due;
    var h, next := requests[k - 1], requests[k];
    assert Follows(w, k, h, next, budget);
    var Said(content, calls) := w.model(h);
    var m := Assistant(content, calls);
    var replies :|
         && Replied(w, h + [m], calls, replies, budget)
         && var all := h + [m] + replies;
         && next == all + if k >= MAX_ROUNDS || Bytes(all) >= budget then [User(ANSWER_NOW)] else [];
    RepliesAreTools(w, h + [m], calls, replies, budget);
    var all := h + [m] + replies;
    assert all[|all| - 1] == replies[|replies| - 1];
    BytesSnoc(all, User(ANSWER_NOW));
    assert all + [] == all;
  }
}
