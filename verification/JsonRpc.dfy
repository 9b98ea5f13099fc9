/** The JSON-RPC dispatcher of the server and the session a client holds with it, over lines already
    parsed: which lines are answered, counted, and turned into an unpark. */
module JsonRpc {
  import opened Words
  import opened Geometry

  /** The integers the parser keeps as such; one beyond 64 bits has become a fraction. */
  type Integer = n: int | -TWO63 <= n < TWO64

  /** A JSON value as parsed, as far as ids need telling apart; fractions, and arrays and objects, stand under
      a number. */
  datatype Value =
    | Null
    | Bool(b: bool)
    | Number(n: Integer)
    | Fraction(tag: nat)
    | Text(s: string)
    | Composite(tag: nat)

  datatype Field = Missing | Given(v: Value)

  /** A line of the socket. A message is a JSON object with the string members `jsonrpc` and `method`, or
      (`positional`) an array that holds the members in their order, which the parser takes as well. */
  datatype Line =
    | Blank
    | Malformed
    | Message(version: string, id: Field, name: string, params: Params, positional: bool)

  /** Scalar stands for any value that is neither an object nor an array. */
  datatype Params = NoParams | AttachName(name: string) | Seq(x: u64) | Scalar

  datatype Reply =
    | Attached(id: Value, slots: u32, slotSize: u32)
    | MethodNotFound(id: Value, code: int, name: string)

  datatype Answer = Silence | Says(reply: Reply)

  const METHOD_NOT_FOUND: int := -32601

  /** The server's part of `ControlStats`. */
  class Counters {
    var postedCalls: u64
    constructor ()
      ensures postedCalls == 0
    {
      postedCalls := 0;
    }
  }

  /** The consumer thread, as `unpark` sees it. */
  class Thread {
    var token: bool
    constructor ()
      ensures !token
    {
      token := false;
    }

    method Unpark()
      modifies this
      ensures token
    {
      token := true;
    }
  }

  /** `Option<Value>` takes a `null` id for an absent one. */
  function AnswerId(id: Field): Field {
    if id == Given(Null) then Missing else id
  }

  // ----- What each line calls for -----

  function AnswerTo(c: RingConfig, line: Line): Answer {
    if !line.Message? || AnswerId(line.id).Missing? || line.name == "posted" then Silence
    else if line.name == "attach" then
      Says(Attached(line.id.v, Truncate32(c.numSlots), Truncate32(c.slotSize)))
    else Says(MethodNotFound(line.id.v, METHOD_NOT_FOUND, line.name))
  }

  function Answers(c: RingConfig, lines: seq<Line>): seq<Reply> {
    if lines == [] then []
    else
      var last := |lines| - 1;
      var a := AnswerTo(c, lines[last]);
      Answers(c, lines[..last]) + (if a.Says? then [a.reply] else [])
  }

  /** The lines that are messages named `posted`, by their numbers. */
  function PostedAt(lines: seq<Line>): set<nat> {
    set i | 0 <= i < |lines| && lines[i].Message? && lines[i].name == "posted"
  }

  lemma OneLineMore(lines: seq<Line>, line: Line)
    ensures PostedAt(lines + [line]) ==
              PostedAt(lines) + (if line.Message? && line.name == "posted" then {|lines|} else {})
    ensures |PostedAt(lines + [line])| ==
              |PostedAt(lines)| + (if line.Message? && line.name == "posted" then 1 else 0)
  {
    var more := lines + [line];
    assert forall i :: 0 <= i < |lines| ==> more[i] == lines[i];
    assert |lines| !in PostedAt(lines);
  }

  /** `serve`: read line by line to the end of the socket, dispatching each by its method. The counter grows by
      the number of messages named `posted`, of whatever id and parameters, and the token is set exactly if
      there is one; blank and malformed lines, `attach` and unknown methods add nothing. */
  method Serve(c: RingConfig, lines: seq<Line>, consumer: Thread, stats: Counters) returns (replies: seq<Reply>)
    modifies consumer, stats
    ensures replies == Answers(c, lines)
    ensures stats.postedCalls ==
            Wrap64(old(stats.postedCalls) +
                   |set i | 0 <= i < |lines| && lines[i].Message? && lines[i].name == "posted"|)
    ensures consumer.token <==>
              old(consumer.token) || exists i :: 0 <= i < |lines| && lines[i].Message? && lines[i].name == "posted"
  {
    hide AnswerTo, PostedAt;
    replies := [];
    var read := 0;
    assert lines[..0] == [];
    PostedAny([]);
    while read < |lines|
      invariant read <= |lines|
      invariant replies == Answers(c, lines[..read])
      invariant stats.postedCalls == Wrap64(old(stats.postedCalls) + |PostedAt(lines[..read])|)
      invariant consumer.token <==> old(consumer.token) || PostedAt(lines[..read]) != {}
    {
      var line := lines[read];
      assert lines[..read + 1] == lines[..read] + [line];
      OneLineMore(lines[..read], line);
      WrapSum(old(stats.postedCalls) + |PostedAt(lines[..read])|, 1);
      var answer := Dispatch(c, line, consumer, stats);
      replies := replies + if answer.Says? then [answer.reply] else [];
      read := read + 1;
    }
    assert lines[..read] == lines;
    PostedAny(lines);
  }

  lemma PostedAny(lines: seq<Line>)
    ensures PostedAt(lines) == set i | 0 <= i < |lines| && lines[i].Message? && lines[i].name == "posted"
    ensures PostedAt(lines) != {} <==> exists i :: 0 <= i < |lines| && lines[i].Message? && lines[i].name == "posted"
  {
    if i :| 0 <= i < |lines| && lines[i].Message? && lines[i].name == "posted" {
      assert i in PostedAt(lines);
    }
    assert PostedAt(lines) != {} ==> exists i :: i in PostedAt(lines);
  }

  /** One line, by its method. */
  method Dispatch(c: RingConfig, line: Line, consumer: Thread, stats: Counters) returns (answer: Answer)
    modifies consumer, stats
    ensures answer == AnswerTo(c, line)
    ensures stats.postedCalls ==
            if line.Message? && line.name == "posted" then Wrap64(old(stats.postedCalls) + 1)
            else old(stats.postedCalls)
    ensures consumer.token == (old(consumer.token) || (line.Message? && line.name == "posted"))
  {
    answer := Silence;
    match line
    case Blank =>
    case Malformed =>
    case Message(_, id, name, params, _) =>
      var answerId := AnswerId(id);
      if name == "attach" {
        if answerId.Given? {
          answer := Says(Attached(answerId.v, Truncate32(c.numSlots), Truncate32(c.slotSize)));
        }
      } else if name == "posted" {
        stats.postedCalls := Wrap64(stats.postedCalls + 1);
        consumer.Unpark();
      } else if answerId.Given? {
        answer := Says(MethodNotFound(answerId.v, METHOD_NOT_FOUND, name));
      }
  }

  /** `at` lists, in order, the messages other than `posted` that bear an id that is not null; `replies` answers
      those. */
  ghost predicate Answered(c: RingConfig, lines: seq<Line>, replies: seq<Reply>, at: seq<nat>) {
    && |at| == |replies|
    && (forall k :: 0 <= k < |at| ==> at[k] < |lines| && lines[at[k]].Message? && lines[at[k]].id.Given?)
    && (forall k, l :: 0 <= k < l < |at| ==> at[k] < at[l])
    && (forall i :: 0 <= i < |lines| ==>
          (i in at <==> lines[i].Message? && lines[i].id.Given? && lines[i].id.v != Null && lines[i].name != "posted"))
    && forall k :: 0 <= k < |at| ==> AnswerFits(c, lines[at[k]], replies[k])
  }

  /** Which lines are answered, and how: exactly the messages other than `posted` that bear an id that is not
      null, each once, in order; `attach` by the geometry in 32 bits, any other method by the error -32601
      with the method's name. */
  lemma {:induction false} WhoIsAnswered(c: RingConfig, lines: seq<Line>) returns (at: seq<nat>)
    ensures Answered(c, lines, Answers(c, lines), at)
  {
    if lines == [] {
      at := [];
    } else {
      var rest, line := lines[..|lines| - 1], lines[|lines| - 1];
      at := WhoIsAnswered(c, rest);
      assert lines == rest + [line];
      if AnswerTo(c, line).Says? {
        LineAnswered(c, rest, line, Answers(c, rest), at);
        at := at + [|rest|];
      } else {
        LineSilent(c, rest, line, Answers(c, rest), at);
      }
    }
  }

  lemma LineAnswered(c: RingConfig, lines: seq<Line>, line: Line, replies: seq<Reply>, at: seq<nat>)
    requires Answered(c, lines, replies, at) && AnswerTo(c, line).Says?
    ensures Answered(c, lines + [line], replies + [AnswerTo(c, line).reply], at + [|lines|])
  {
    var more, reply := lines + [line], AnswerTo(c, line).reply;
    assert forall i :: 0 <= i < |lines| ==> more[i] == lines[i];
    assert AnswerFits(c, line, reply);
    hide AnswerFits, AnswerTo;
    assert forall i :: i in at + [|lines|] <==> i in at || i == |lines|;
  }

  lemma LineSilent(c: RingConfig, lines: seq<Line>, line: Line, replies: seq<Reply>, at: seq<nat>)
    requires Answered(c, lines, replies, at) && AnswerTo(c, line).Silence?
    ensures Answered(c, lines + [line], replies, at)
  {
    var more := lines + [line];
    assert forall i :: 0 <= i < |lines| ==> more[i] == lines[i];
    hide AnswerFits;
  }

  predicate AnswerFits(c: RingConfig, line: Line, reply: Reply)
    requires line.Message? && line.id.Given?
  {
    && reply.id == line.id.v
    && (reply.Attached? <==> line.name == "attach")
    && (reply.Attached? ==> reply.slots == c.numSlots % TWO32 && reply.slotSize == c.slotSize % TWO32)
    && (reply.MethodNotFound? ==> reply.code == -32601 && reply.name == line.name)
  }

  // ----- Against the JSON-RPC 2.0 Specification -----

  const PARSE_ERROR: int := -32700
  const INVALID_REQUEST: int := -32600

  /** What the specification wants said about a line: nothing, a response with a result, or one with an error
      of one of the given codes. */
  datatype Obligation =
    | Nothing
    | Result(id: Value)
    | Error(id: Value, codes: set<int>)

  /** Section 4: an object; the version is exactly "2.0", the id a string, a number or null, the parameters
      structured. */
  predicate ValidRequest(line: Line)
    requires line.Message?
  {
    && line.version == "2.0" && !line.positional
    && (line.id.Missing? || line.id.v.Text? || line.id.v.Number? || line.id.v.Fraction? || line.id.v.Null?)
    && !line.params.Scalar?
  }

  /** Section 4.1: a request without an id is a notification and must not be answered. Section 5: any other
      gets a response with its id, with a result if the method exists and with the error -32601 if it does
      not (section 5.1); what is no valid request gets an error with the id null. */
  function Owed(line: Line): Obligation {
    if line.Blank? then Nothing
    else if line.Malformed? then Error(Null, {PARSE_ERROR, INVALID_REQUEST})
    else if !ValidRequest(line) then Error(Null, {INVALID_REQUEST})
    else if line.id.Missing? then Nothing
    else if line.name == "attach" || line.name == "posted" then Result(line.id.v)
    else Error(line.id.v, {METHOD_NOT_FOUND})
  }

  predicate Meets(reply: Reply, owed: Obligation) {
    match owed
    case Nothing => false
    case Result(id) => reply.Attached? && reply.id == id
    case Error(id, codes) => reply.MethodNotFound? && reply.id == id && reply.code in codes
  }

  function AllOwed(lines: seq<Line>): seq<Obligation> {
    if lines == [] then []
    else
      var owed := Owed(lines[|lines| - 1]);
      AllOwed(lines[..|lines| - 1]) + (if owed.Nothing? then [] else [owed])
  }

  /** As many replies as are owed, each meeting its obligation, in order. */
  predicate Conform(replies: seq<Reply>, owed: seq<Obligation>) {
    |replies| == |owed| && forall i :: 0 <= i < |replies| ==> Meets(replies[i], owed[i])
  }

  /** The lines with which the server does something else than the specification says: it never answers a
      malformed line, a null id, or `posted`; and it never says that a request is invalid. */
  predicate Deviates(line: Line) {
    line.Malformed? ||
    (line.Message? && (!ValidRequest(line) || line.id == Given(Null) || (line.name == "posted" && line.id.Given?)))
  }

  /** Line by line: what the server says is what is owed, exactly if the line is not one of those. */
  lemma LineAsSpecified(c: RingConfig, line: Line)
    ensures var a, owed := AnswerTo(c, line), Owed(line);
            !Deviates(line) <==> (if a.Silence? then owed.Nothing? else Meets(a.reply, owed))
  {
  }

  /** An id that is neither string, number nor null is echoed; the specification asks for the id null. */
  lemma BooleanIdIsEchoed(c: RingConfig)
    ensures var line := Message("2.0", Given(Bool(true)), "attach", NoParams, false);
            && AnswerTo(c, line).Says? && AnswerTo(c, line).reply.id == Bool(true)
            && Owed(line) == Error(Null, {INVALID_REQUEST})
            && !Conform(Answers(c, [line]), AllOwed([line]))
  {
    var line := Message("2.0", Given(Bool(true)), "attach", NoParams, false);
    assert [line][..0] == [];
    assert Answers(c, [line]) == [AnswerTo(c, line).reply];
    assert AllOwed([line]) == [Owed(line)];
    assert !Meets(Answers(c, [line])[0], AllOwed([line])[0]);
  }

  /** The server never says anything about a line for which nothing is owed; so it never says more. */
  lemma {:induction false} NeverMoreThanOwed(c: RingConfig, lines: seq<Line>)
    ensures |Answers(c, lines)| <= |AllOwed(lines)|
  {
    if lines != [] {
      NeverMoreThanOwed(c, lines[..|lines| - 1]);
      SpeaksOnlyIfOwed(c, lines[|lines| - 1]);
    }
  }

  lemma SpeaksOnlyIfOwed(c: RingConfig, line: Line)
    ensures AnswerTo(c, line).Says? ==> !Owed(line).Nothing?
  {
  }

  /** The replies on one connection are those the specification asks for, as to ids, results, errors and
      order, exactly if no line deviates. */
  lemma {:induction false} RepliesAsSpecified(c: RingConfig, lines: seq<Line>)
    ensures Conform(Answers(c, lines), AllOwed(lines)) <==>
            forall i :: 0 <= i < |lines| ==> !Deviates(lines[i])
  {
    if lines != [] {
      var rest, line := lines[..|lines| - 1], lines[|lines| - 1];
      var a, owed := AnswerTo(c, line), Owed(line);
      RepliesAsSpecified(c, rest);
      NeverMoreThanOwed(c, rest);
      LineAsSpecified(c, line);
      SpeaksOnlyIfOwed(c, line);
      assert forall i :: 0 <= i < |rest| ==> rest[i] == lines[i];
      assert (forall i :: 0 <= i < |lines| ==> !Deviates(lines[i])) <==>
             (forall i :: 0 <= i < |rest| ==> !Deviates(rest[i])) && !Deviates(line);
      if a.Says? {
        ConformSnoc(Answers(c, rest), AllOwed(rest), a.reply, owed);
      } else if owed.Nothing? {
        assert Answers(c, lines) == Answers(c, rest) && AllOwed(lines) == AllOwed(rest);
      } else {
        assert |Answers(c, lines)| < |AllOwed(lines)|;
      }
    }
  }

  lemma ConformSnoc(replies: seq<Reply>, owed: seq<Obligation>, r: Reply, o: Obligation)
    ensures Conform(replies + [r], owed + [o]) <==> Conform(replies, owed) && Meets(r, o)
  {
    var rs, os := replies + [r], owed + [o];
    if |replies| == |owed| {
      assert forall i :: 0 <= i < |replies| ==> rs[i] == replies[i] && os[i] == owed[i];
      assert rs[|replies|] == r && os[|owed|] == o;
    }
  }

  // ----- The attach exchange -----

  /** The geometry a client works with after `attach`. */
  function ClientConfig(reply: Reply): RingConfig
    requires reply.Attached?
  {
    RingConfig(reply.slots, reply.slotSize)
  }

  /** The client sees the server's geometry exactly if both numbers fit 32 bits. */
  lemma AttachExact(c: RingConfig, id: Value, params: Params)
    requires id != Null
    ensures var a := AnswerTo(c, Message("2.0", Given(id), "attach", params, false));
            && a.Says? && a.reply.Attached? && a.reply.id == id
            && (ClientConfig(a.reply) == c <==> c.numSlots < TWO32 && c.slotSize < TWO32)
  {
  }

  /** Of an accepted slot count of 2^32 or more nothing is left: the client is told zero slots. */
  lemma ManySlotsVanish(c: RingConfig)
    requires c.Check() && c.numSlots >= TWO32
    ensures Truncate32(c.numSlots) == 0
  {
    var k := OneBit(c.numSlots);
    PowerOf32();
    if k < 32 {
      PowerGrows(k, 31);
      assert false;
    }
    PowerSplit(32, k - 32);
    hide Pow2;
    assert c.numSlots == Pow2(k - 32) * TWO32 + 0;
    Remainder(c.numSlots, TWO32, Pow2(k - 32), 0);
  }

  // ----- A client's session -----

  /** What `attach` writes. */
  function AttachRequest(name: string): Line {
    Message("2.0", Given(Number(1)), "attach", AttachName(name), false)
  }

  /** What the writer task writes for each number signalled: a notification. */
  function PostedLines(signals: seq<u64>): (r: seq<Line>)
    ensures |r| == |signals|
  {
    seq(|signals|, i requires 0 <= i < |signals| => Message("2.0", Missing, "posted", Seq(signals[i]), false))
  }

  /** Over a client's whole session the server answers the attach request and nothing else, and counts one
      `posted` call for each number signalled; the lines bear the client's name and those numbers, in order. */
  lemma {:induction false} ClientSession(c: RingConfig, name: string, signals: seq<u64>)
    ensures var lines := [AttachRequest(name)] + PostedLines(signals);
            && Answers(c, lines) == [Attached(Number(1), Truncate32(c.numSlots), Truncate32(c.slotSize))]
            && |PostedAt(lines)| == |signals|
            && |lines| == 1 + |signals| && lines[0].name == "attach" && lines[0].params == AttachName(name)
            && (forall i :: 0 <= i < |signals| ==>
                  lines[i + 1].name == "posted" && lines[i + 1].params == Seq(signals[i]))
            && Conform(Answers(c, lines), AllOwed(lines))
  {
    var lines := [AttachRequest(name)] + PostedLines(signals);
    RepliesAsSpecified(c, lines);
    if signals == [] {
      assert lines == [] + [AttachRequest(name)] && lines[..0] == [];
      OneLineMore([], AttachRequest(name));
      assert Answers(c, []) == [] && PostedAt([]) == {};
    } else {
      var rest := signals[..|signals| - 1];
      ClientSession(c, name, rest);
      assert lines[..|lines| - 1] == [AttachRequest(name)] + PostedLines(rest);
      assert lines[|lines| - 1] == Message("2.0", Missing, "posted", Seq(signals[|signals| - 1]), false);
      assert lines == lines[..|lines| - 1] + [lines[|lines| - 1]];
      OneLineMore(lines[..|lines| - 1], lines[|lines| - 1]);
    }
  }
}
