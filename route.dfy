/**
 * The endpoint of app/api/realtime/route.ts: POST applies one action to the
 * store and answers with the whole state; GET opens a Server-Sent Events stream
 * that sends the state once on open and again after every change.
 *
 * JSON is not modelled: a request arrives already parsed (or not), and the
 * stream turns a state into text with a `serialize` function it is given.
 */
module Route {
  import opened Wrappers
  import opened Store

  // ---------------------------------------------------------------------------
  // POST: action dispatch
  // ---------------------------------------------------------------------------

  /** The fields POST reads from the body; None where the body has no such string field. */
  datatype Fields = Fields(action: Option<string>, optionId: Option<string>, username: Option<string>, message: Option<string>)

  /** A body that could not be read as JSON (or read as `null`, which cannot be destructured), or the fields of one that could. */
  datatype Request = Malformed | Parsed(fields: Fields)

  datatype Payload = Snapshot(state: RealtimeState) | Failure(error: string)

  datatype Response = Response(status: nat, body: Payload)

  /** The store operation a request selects. */
  datatype Command = Increment | Decrement | Reset | Vote(optionId: string) | Chat(username: string, message: string) | Ignore

  /** JavaScript truthiness of a string field: present and not empty. */
  predicate Truthy(v: Option<string>)
  {
    v.Some? && v.value != ""
  }

  /** The action name that selects each command. */
  function ActionName(c: Command): string
  {
    match c
    case Increment => "increment"
    case Decrement => "decrement"
    case Reset => "reset"
    case Vote(_) => "vote"
    case Chat(_, _) => "chat"
    case Ignore => ""
  }

  /** The if/else chain of POST: which store operation the request asks for, with its arguments. */
  function Classify(f: Fields): (c: Command)
    ensures c != Ignore ==> f.action == Some(ActionName(c))
    ensures c.Vote? ==> f.optionId == Some(c.optionId) && c.optionId != ""
    ensures c.Chat? ==> f.username == Some(c.username) && c.username != "" && f.message == Some(c.message) && c.message != ""
  {
    if f.action == Some("increment") then Increment
    else if f.action == Some("decrement") then Decrement
    else if f.action == Some("reset") then Reset
    else if f.action == Some("vote") && Truthy(f.optionId) then Vote(f.optionId.value)
    else if f.action == Some("chat") && Truthy(f.username) && Truthy(f.message) then Chat(f.username.value, f.message.value)
    else Ignore
  }

  /**
   * A request is ignored exactly when its action is none of the five, or it is
   * "vote" without an option id, or "chat" without both a username and a message.
   */
  lemma IgnoredExactly(f: Fields)
    ensures Classify(f) == Ignore <==>
      (f.action.None? || f.action.value !in {"increment", "decrement", "reset", "vote", "chat"}
       || (f.action == Some("vote") && !Truthy(f.optionId))
       || (f.action == Some("chat") && (!Truthy(f.username) || !Truthy(f.message))))
  {
  }

  /** What a command does to the state; `now` and `id` are the clock reading and the new chat message's id. */
  function Effect(s: RealtimeState, c: Command, now: Millis, id: string): RealtimeState
  {
    match c
    case Increment => s.(counter := CounterState(s.counter.count + 1, now))
    case Decrement => s.(counter := CounterState(s.counter.count - 1, now))
    case Reset => s.(counter := CounterState(0, now))
    case Vote(o) => s.(votes := CastVote(s.votes, o))
    case Chat(u, m) => s.(chatMessages := AppendCapped(s.chatMessages, ChatMessage(id, u, m, now)))
    case Ignore => s
  }

  /** Whether the command makes the store call its listeners: every change does, a vote for no option does not. */
  predicate Notifies(s: RealtimeState, c: Command)
  {
    match c
    case Vote(o) => HasOption(s.votes, o)
    case Ignore => false
    case _ => true
  }

  /**
   * The listeners are called for every command except an ignored request and a
   * vote that names no option, and those two leave the state as it was.
   */
  lemma NotifiesUnlessNoOp(s: RealtimeState, c: Command, now: Millis, id: string)
    ensures Notifies(s, c) <==> (c != Ignore && !(c.Vote? && Effect(s, c, now, id) == s))
    ensures !Notifies(s, c) ==> Effect(s, c, now, id) == s
  {
  }

  /** Every command keeps the store's invariant. */
  lemma EffectKeepsWellFormed(s: RealtimeState, c: Command, now: Millis, id: string)
    requires WellFormed(s)
    ensures WellFormed(Effect(s, c, now, id))
  {
  }

  /** One request as the store sees it: the command, the clock reading and the id for a chat message. */
  datatype Step = Step(command: Command, now: Millis, id: string)

  function Run(s: RealtimeState, steps: seq<Step>): RealtimeState
    decreases |steps|
  {
    if steps == [] then s else Run(Effect(s, steps[0].command, steps[0].now, steps[0].id), steps[1..])
  }

  /** However many requests are served, the chat log stays within its cap and the poll keeps its three options. */
  lemma {:induction false} RunKeepsWellFormed(s: RealtimeState, steps: seq<Step>)
    requires WellFormed(s)
    ensures WellFormed(Run(s, steps))
    decreases |steps|
  {
    if steps != [] {
      EffectKeepsWellFormed(s, steps[0].command, steps[0].now, steps[0].id);
      RunKeepsWellFormed(Effect(s, steps[0].command, steps[0].now, steps[0].id), steps[1..]);
    }
  }

  /**
   * What serving one POST promises: a malformed body gets status 400 and changes
   * nothing; any other body gets status 200 and the state after the selected
   * operation, which is the only change made, and which calls every registered
   * listener once when it changes anything. The listener set stays as it was.
   */
  twostate predicate Served(store: RealtimeStore, req: Request, now: Millis, id: string, resp: Response)
    reads store
  {
    && store.listeners == old(store.listeners)
    && (req.Malformed? ==> resp == Response(400, Failure("Invalid request")) && unchanged(store))
    && (req.Parsed? ==>
          var c := Classify(req.fields);
          && store.GetState() == Effect(old(store.GetState()), c, now, id)
          && resp == Response(200, Snapshot(store.GetState()))
          && (if Notifies(old(store.GetState()), c)
              then Notified(old(store.delivered), store.delivered, store.listeners, store.GetState())
              else store.delivered == old(store.delivered)))
  }

  /** POST: dispatch on the action, apply the operation, answer with the whole state. */
  method Post(store: RealtimeStore, req: Request, now: Millis, id: string) returns (resp: Response)
    requires store.Valid()
    modifies store
    ensures store.Valid()
    ensures Served(store, req, now, id, resp)
  {
    if req.Malformed? {
      return Response(400, Failure("Invalid request"));
    }
    var c := Classify(req.fields);
    match c {
      case Increment =>
        var counter := store.IncrementCounter(now);
      case Decrement =>
        var counter := store.DecrementCounter(now);
      case Reset =>
        var counter := store.ResetCounter(now);
      case Vote(o) =>
        var votes := store.AddVote(o);
      case Chat(u, m) =>
        var added := store.AddChatMessage(u, m, id, now);
      case Ignore =>
    }
    resp := Response(200, Snapshot(store.GetState()));
  }

  // ---------------------------------------------------------------------------
  // GET: Server-Sent Events frames
  // ---------------------------------------------------------------------------

  /** The frame `sendUpdate` writes: a `data` field carrying the JSON text, ended by a blank line. */
  function DataFrame(json: string): (r: string)
    ensures |r| == |json| + 8 && r[|r| - 2..] == "\n\n"
    ensures SingleLine(json) ==> SingleLine(r[..|r| - 2])
  {
    "data: " + json + "\n\n"
  }

  /** The keepalive frame: a comment line, which clients ignore, ended by a blank line. */
  function PingFrame(): (r: string)
    ensures |r| > 2 && r[0] == ':' && r[|r| - 2..] == "\n\n" && SingleLine(r[..|r| - 2])
  {
    ": ping\n\n"
  }

  predicate IsLineBreak(c: char)
  {
    c == '\n' || c == '\r'
  }

  predicate SingleLine(s: string)
  {
    forall i :: 0 <= i < |s| ==> !IsLineBreak(s[i])
  }

  /** What a client makes of a frame: a message event with its data, or a comment. */
  datatype StreamEvent = Message(data: string) | Comment

  function DropLeadingSpace(v: string): string
  {
    if |v| > 0 && v[0] == ' ' then v[1..] else v
  }

  /**
   * How an event-stream client reads a frame made of one line and a blank line,
   * following section 9.2.6 of the WHATWG HTML Living Standard: a line starting
   * with a colon is a comment; a `data` field gives a message whose data is the
   * value after the colon, less one leading space. Other fields and frames of
   * several lines are not recognised here.
   */
  function DecodeFrame(frame: string): Option<StreamEvent>
  {
    if |frame| < 2 || frame[|frame| - 2..] != "\n\n" then None
    else
      var line := frame[..|frame| - 2];
      if !SingleLine(line) then None
      else if |line| > 0 && line[0] == ':' then Some(Comment)
      else if line == "data" then Some(Message(""))
      else if |line| >= 5 && line[..5] == "data:" then Some(Message(DropLeadingSpace(line[5..])))
      else None
  }

  /** A data frame reads back as a message carrying exactly the serialized text, which JSON keeps on one line. */
  lemma DataFrameDecodes(json: string)
    requires SingleLine(json)
    ensures DecodeFrame(DataFrame(json)) == Some(Message(json))
  {
  }

  /** The keepalive frame reads back as a comment, never as a message. */
  lemma PingFrameDecodes()
    ensures DecodeFrame(PingFrame()) == Some(Comment)
  {
  }

  /** The data frames for a sequence of states, one per state, in order. */
  function DataFrames(serialize: RealtimeState -> string, states: seq<RealtimeState>): seq<string>
  {
    seq(|states|, i requires 0 <= i < |states| => DataFrame(serialize(states[i])))
  }

  /** A client reading the frames gets back, one message each, the serialized states in the order they were sent. */
  lemma DataFramesDecode(serialize: RealtimeState -> string, states: seq<RealtimeState>)
    requires forall s :: SingleLine(serialize(s))
    ensures forall i :: 0 <= i < |states| ==> DecodeFrame(DataFrames(serialize, states)[i]) == Some(Message(serialize(states[i])))
  {
  }

  // ---------------------------------------------------------------------------
  // GET: one stream's life
  // ---------------------------------------------------------------------------

  datatype Phase = Streaming | Closed

  /**
   * One open GET request. The data frames it has sent are the snapshot taken on
   * open followed by one frame per call its listener has received; keepalive
   * frames are counted in `pings`.
   */
  class EventStream {
    const store: RealtimeStore
    const serialize: RealtimeState -> string
    const listener: Listener
    var unsubscribe: Subscription
    /** The state sent on open. */
    const first: RealtimeState
    var phase: Phase
    var pings: nat

    /** The opening snapshot first, then one data frame per call the listener has received, in order. */
    function Frames(): (r: seq<string>)
      reads this, store
      ensures |r| == 1 + |store.Received(listener)| && r[0] == DataFrame(serialize(first))
      ensures r[1..] == DataFrames(serialize, store.Received(listener))
    {
      [DataFrame(serialize(first))] + DataFrames(serialize, store.Received(listener))
    }

    /** The stream's listener is registered exactly while the stream is open, and its handle removes that listener. */
    predicate Valid()
      reads this, store
    {
      unsubscribe == Subscription(listener) && (phase == Streaming <==> listener in store.listeners)
    }

    /** `start`: send the current state, then subscribe a new listener that sends it again on every change. */
    constructor Open(store: RealtimeStore, serialize: RealtimeState -> string)
      modifies store
      ensures this.store == store && this.serialize == serialize && fresh(listener)
      ensures first == old(store.GetState())
      ensures Frames() == [DataFrame(serialize(old(store.GetState())))]
      ensures listener !in old(store.listeners) && store.listeners == old(store.listeners) + {listener}
      ensures store.GetState() == old(store.GetState()) && store.delivered == old(store.delivered)
      ensures phase == Streaming && pings == 0 && unsubscribe == Subscription(listener)
      ensures Valid()
    {
      this.store := store;
      this.serialize := serialize;
      first := store.GetState();
      var l := new Listener();
      listener := l;
      phase := Streaming;
      pings := 0;
      unsubscribe := Subscription(l);
      new;
      assert l !in store.delivered;
      unsubscribe := store.Subscribe(l);
    }

    /** The interval timer firing: a keepalive frame, only while the stream is open. */
    method Ping() returns (frame: string)
      requires phase == Streaming
      modifies this`pings
      ensures frame == PingFrame()
      ensures pings == old(pings) + 1 && phase == Streaming
    {
      frame := PingFrame();
      pings := pings + 1;
    }

    /** The request's abort signal: unsubscribe, stop the timer and close. */
    method Abort()
      requires Valid() && phase == Streaming
      modifies this`phase, store
      ensures Valid() && phase == Closed
      ensures store.listeners == old(store.listeners) - {listener}
      ensures store.GetState() == old(store.GetState()) && store.delivered == old(store.delivered)
      ensures Frames() == old(Frames())
    {
      store.Unsubscribe(unsubscribe);
      phase := Closed;
    }
  }

  lemma DataFramesSnoc(serialize: RealtimeState -> string, states: seq<RealtimeState>, s: RealtimeState)
    ensures DataFrames(serialize, states + [s]) == DataFrames(serialize, states) + [DataFrame(serialize(s))]
  {
  }

  /**
   * A POST seen from an open stream: everything Post promises, and when the
   * action changes the state, exactly one frame is added and it carries the
   * state after the change; otherwise no frame is added.
   */
  method PostToOpenStream(stream: EventStream, req: Request, now: Millis, id: string) returns (resp: Response)
    requires stream.store.Valid() && stream.Valid() && stream.phase == Streaming
    modifies stream.store
    ensures stream.store.Valid() && stream.Valid()
    ensures Served(stream.store, req, now, id, resp)
    ensures req.Parsed? && Notifies(old(stream.store.GetState()), Classify(req.fields)) ==>
      stream.Frames() == old(stream.Frames()) + [DataFrame(stream.serialize(stream.store.GetState()))]
    ensures !(req.Parsed? && Notifies(old(stream.store.GetState()), Classify(req.fields))) ==>
      stream.Frames() == old(stream.Frames())
  {
    ghost var calls := stream.store.Received(stream.listener);
    resp := Post(stream.store, req, now, id);
    if req.Parsed? && Notifies(old(stream.store.GetState()), Classify(req.fields)) {
      NotifiedCounts(old(stream.store.delivered), stream.store.delivered, stream.store.listeners,
                     stream.store.GetState(), stream.listener);
      DataFramesSnoc(stream.serialize, calls, stream.store.GetState());
    }
  }

  /** After the abort, a POST of any kind does everything Post promises and adds no frame to that stream. */
  method PostToClosedStream(stream: EventStream, req: Request, now: Millis, id: string) returns (resp: Response)
    requires stream.store.Valid() && stream.Valid() && stream.phase == Closed
    modifies stream.store
    ensures stream.store.Valid() && stream.Valid()
    ensures Served(stream.store, req, now, id, resp)
    ensures stream.Frames() == old(stream.Frames())
  {
    resp := Post(stream.store, req, now, id);
    if req.Parsed? && Notifies(old(stream.store.GetState()), Classify(req.fields)) {
      NotifiedCounts(old(stream.store.delivered), stream.store.delivered, stream.store.listeners,
                     stream.store.GetState(), stream.listener);
    }
  }

  /**
   * Two streams on one store. A change reaches both; once the second is
   * aborted, later changes reach only the first, whichever stream's request
   * carries them.
   */
  method TwoStreams(serialize: RealtimeState -> string, now: Millis) returns (framesA: nat, framesB: nat)
    ensures framesA == 4 && framesB == 2
  {
    var store := new RealtimeStore(now);
    var a := new EventStream.Open(store, serialize);
    var b := new EventStream.Open(store, serialize);
    var increment := Parsed(Fields(Some("increment"), None, None, None));
    assert Classify(increment.fields) == Increment;
    ghost var before := store.delivered;
    var r := PostToOpenStream(a, increment, now, "");
    NotifiedCounts(before, store.delivered, store.listeners, store.GetState(), b.listener);
    assert |a.Frames()| == 2 && |b.Frames()| == 2;
    b.Abort();
    AfterAbort(a, b, now);
    framesA, framesB := |a.Frames()|, |b.Frames()|;
  }

  /** The second part of TwoStreams: with b aborted, an increment posted through each stream reaches a alone. */
  method AfterAbort(a: EventStream, b: EventStream, now: Millis)
    requires a.store == b.store && a.store.Valid()
    requires a.Valid() && a.phase == Streaming && b.Valid() && b.phase == Closed
    modifies a.store
    ensures |a.Frames()| == |old(a.Frames())| + 2 && b.Frames() == old(b.Frames())
  {
    var store := a.store;
    var increment := Parsed(Fields(Some("increment"), None, None, None));
    assert Classify(increment.fields) == Increment;
    ghost var before := store.delivered;
    var r := PostToOpenStream(a, increment, now, "");
    NotifiedCounts(before, store.delivered, store.listeners, store.GetState(), b.listener);
    before := store.delivered;
    r := PostToClosedStream(b, increment, now, "");
    NotifiedCounts(before, store.delivered, store.listeners, store.GetState(), a.listener);
  }

  /** The poll after one vote for option "2", written out. */
  function SecondVoted(): seq<VoteOption>
  {
    [VoteOption("1", "Option A", 0), VoteOption("2", "Option B", 1), VoteOption("3", "Option C", 0)]
  }

  lemma VoteForSecondOption()
    ensures FindOption(InitialVotes(), "2") == Some(1)
    ensures CastVote(InitialVotes(), "2") == SecondVoted()
  {
  }

  /**
   * The scenario of a fresh store with one open stream: three increments, a
   * vote for option "2" and a chat message. The stream has then sent six data
   * frames, the opening snapshot and one per change.
   */
  method Scenario(serialize: RealtimeState -> string, now: Millis)
    returns (count: int, poll: seq<VoteOption>, chat: seq<ChatMessage>, frames: nat)
    ensures count == 3
    ensures |poll| == 3 && poll[0].votes == 0 && poll[1].votes == 1 && poll[2].votes == 0
    ensures |chat| == 1 && chat[0].username == "Alice" && chat[0].message == "hi"
    ensures frames == 6
  {
    var store := new RealtimeStore(now);
    var stream := new EventStream.Open(store, serialize);
    ThreeIncrements(stream, now);
    VoteForSecond(stream, now);
    ChatFromAlice(stream, now);
    count, poll, chat, frames := store.counter.count, store.votes, store.chatMessages, |stream.Frames()|;
  }

  /** The first part of Scenario: three increments, each sending one frame. */
  method ThreeIncrements(stream: EventStream, now: Millis)
    requires stream.store.Valid() && stream.Valid() && stream.phase == Streaming
    modifies stream.store
    ensures stream.store.Valid() && stream.Valid()
    ensures stream.store.counter.count == old(stream.store.counter.count) + 3
    ensures stream.store.votes == old(stream.store.votes) && stream.store.chatMessages == old(stream.store.chatMessages)
    ensures |stream.Frames()| == |old(stream.Frames())| + 3
  {
    var increment := Parsed(Fields(Some("increment"), None, None, None));
    assert Classify(increment.fields) == Increment;
    var r := PostToOpenStream(stream, increment, now, "");
    r := PostToOpenStream(stream, increment, now, "");
    r := PostToOpenStream(stream, increment, now, "");
  }

  /** The second part of Scenario: a vote for option "2", sending one frame. */
  method VoteForSecond(stream: EventStream, now: Millis)
    requires stream.store.Valid() && stream.Valid() && stream.phase == Streaming
    requires stream.store.votes == InitialVotes()
    modifies stream.store
    ensures stream.store.Valid() && stream.Valid()
    ensures stream.store.counter == old(stream.store.counter) && stream.store.chatMessages == old(stream.store.chatMessages)
    ensures stream.store.votes == SecondVoted()
    ensures |stream.Frames()| == |old(stream.Frames())| + 1
  {
    var vote := Parsed(Fields(Some("vote"), Some("2"), None, None));
    assert Classify(vote.fields) == Vote("2");
    VoteForSecondOption();
    var r := PostToOpenStream(stream, vote, now, "");
  }

  /** The last part of Scenario: Alice's chat message on an empty log, sending one frame. */
  method ChatFromAlice(stream: EventStream, now: Millis)
    requires stream.store.Valid() && stream.Valid() && stream.phase == Streaming
    requires stream.store.chatMessages == []
    modifies stream.store
    ensures stream.store.counter == old(stream.store.counter) && stream.store.votes == old(stream.store.votes)
    ensures |stream.store.chatMessages| == 1
    ensures stream.store.chatMessages[0].username == "Alice" && stream.store.chatMessages[0].message == "hi"
    ensures |stream.Frames()| == |old(stream.Frames())| + 1
  {
    var post := Parsed(Fields(Some("chat"), None, Some("Alice"), Some("hi")));
    assert Classify(post.fields) == Chat("Alice", "hi");
    var r := PostToOpenStream(stream, post, now, "m1");
  }
}
