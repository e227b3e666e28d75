/**
 * The shared in-memory store of lib/realtime-store.ts: a counter, a chat log
 * that keeps the latest 50 messages, a poll of three fixed options, and the set
 * of listeners that are called after every change.
 *
 * The pure functions below say what each change does to the values; the class
 * RealtimeStore changes its fields in place, as the source does, and its
 * methods are proved against those functions.
 */
module Store {
  import opened Wrappers

  /** Wall-clock readings in milliseconds, as `Date.now()` returns them; always passed in. */
  type Millis = int

  datatype CounterState = CounterState(count: int, lastUpdated: Millis)

  datatype ChatMessage = ChatMessage(id: string, username: string, message: string, timestamp: Millis)

  datatype VoteOption = VoteOption(id: string, name: string, votes: nat)

  /** What `getState` hands out: the three parts of the state, without the listeners. */
  datatype RealtimeState = RealtimeState(counter: CounterState, chatMessages: seq<ChatMessage>, votes: seq<VoteOption>)

  /** The chat log never holds more than this many messages. */
  const MaxChatMessages: nat := 50

  // ---------------------------------------------------------------------------
  // Initial values
  // ---------------------------------------------------------------------------

  function InitialVotes(): seq<VoteOption>
  {
    [VoteOption("1", "Option A", 0), VoteOption("2", "Option B", 0), VoteOption("3", "Option C", 0)]
  }

  /** Two polls offer the same options: same length, and the same id and name at every position. */
  predicate SameOptions(a: seq<VoteOption>, b: seq<VoteOption>)
  {
    |a| == |b| && forall i :: 0 <= i < |a| ==> a[i].id == b[i].id && a[i].name == b[i].name
  }

  /** The invariant every reachable state keeps: a bounded log and the original three options, in order. */
  predicate WellFormed(s: RealtimeState)
  {
    |s.chatMessages| <= MaxChatMessages && SameOptions(s.votes, InitialVotes())
  }

  /** Sum of the votes cast over all options. */
  function Tally(votes: seq<VoteOption>): nat
  {
    if votes == [] then 0 else votes[0].votes + Tally(votes[1..])
  }

  /** The state a new store starts in, `now` being the clock reading when it is created. */
  function InitialState(now: Millis): (s: RealtimeState)
    ensures WellFormed(s)
    ensures s.counter.count == 0 && s.chatMessages == []
    ensures |s.votes| == 3 && s.votes[0].id == "1" && s.votes[1].id == "2" && s.votes[2].id == "3"
    ensures forall i :: 0 <= i < |s.votes| ==> s.votes[i].votes == 0
    ensures Tally(s.votes) == 0
  {
    RealtimeState(CounterState(0, now), [], InitialVotes())
  }

  // ---------------------------------------------------------------------------
  // Chat log
  // ---------------------------------------------------------------------------

  /** The most recent MaxChatMessages elements of s, in their original order. */
  function Latest<T>(s: seq<T>): (r: seq<T>)
    ensures |r| == if |s| <= MaxChatMessages then |s| else MaxChatMessages
    ensures r == s[|s| - |r|..]
  {
    if |s| <= MaxChatMessages then s else s[|s| - MaxChatMessages..]
  }

  /** Push m, then drop the first element if the log has grown past the cap. */
  function AppendCapped(log: seq<ChatMessage>, m: ChatMessage): (r: seq<ChatMessage>)
    ensures |r| > 0 && r[|r| - 1] == m
    ensures |log| <= |r| <= |log| + 1 && r == (log + [m])[|log| + 1 - |r|..]
    ensures |log| <= MaxChatMessages ==> |r| <= MaxChatMessages && r == Latest(log + [m])
  {
    var pushed := log + [m];
    if |pushed| > MaxChatMessages then pushed[1..] else pushed
  }

  /** The log after appending each of ms in turn. */
  function AppendAll(log: seq<ChatMessage>, ms: seq<ChatMessage>): seq<ChatMessage>
    decreases |ms|
  {
    if ms == [] then log else AppendAll(AppendCapped(log, ms[0]), ms[1..])
  }

  lemma LatestOfSuffix<T>(s: seq<T>, k: nat)
    requires k <= |s| && MaxChatMessages <= |s| - k
    ensures Latest(s[k..]) == Latest(s)
  {
  }

  /** Keeping the latest messages twice keeps the same messages as doing it once at the end. */
  lemma LatestOfLatest<T>(x: seq<T>, y: seq<T>)
    ensures Latest(Latest(x) + y) == Latest(x + y)
  {
    if |x| > MaxChatMessages {
      var k := |x| - MaxChatMessages;
      assert Latest(x) + y == (x + y)[k..];
      LatestOfSuffix(x + y, k);
    }
  }

  /**
   * However many messages are added, the log holds at most MaxChatMessages of
   * them, and those are the most recent ones in the order they were added.
   */
  lemma {:induction false} AppendAllKeepsLatest(log: seq<ChatMessage>, ms: seq<ChatMessage>)
    requires |log| <= MaxChatMessages
    ensures AppendAll(log, ms) == Latest(log + ms)
    ensures |AppendAll(log, ms)| <= MaxChatMessages
    decreases |ms|
  {
    if ms == [] {
      assert log + ms == log;
    } else {
      var m, rest := ms[0], ms[1..];
      var next := AppendCapped(log, m);
      assert AppendAll(log, ms) == AppendAll(next, rest);
      assert next == Latest(log + [m]);
      AppendAllKeepsLatest(next, rest);
      LatestOfLatest(log + [m], rest);
      assert log + [m] + rest == log + ms;
    }
  }

  // ---------------------------------------------------------------------------
  // Poll
  // ---------------------------------------------------------------------------

  predicate HasOption(votes: seq<VoteOption>, id: string)
  {
    exists j :: 0 <= j < |votes| && votes[j].id == id
  }

  /** The position of the first option whose id is `id`, as `Array.prototype.find` locates it. */
  function FindOption(votes: seq<VoteOption>, id: string): (r: Option<nat>)
    ensures r.Some? ==> r.value < |votes| && votes[r.value].id == id
    ensures r.Some? ==> forall j :: 0 <= j < r.value ==> votes[j].id != id
    ensures r.None? <==> !HasOption(votes, id)
  {
    if votes == [] then None
    else if votes[0].id == id then Some(0)
    else match FindOption(votes[1..], id)
      case None => None
      case Some(k) => Some(k + 1)
  }

  /** One more vote for the first option with that id; the poll as it was when there is none. */
  function CastVote(votes: seq<VoteOption>, id: string): (r: seq<VoteOption>)
    ensures SameOptions(r, votes)
    ensures forall j :: 0 <= j < |r| ==>
      r[j].votes == votes[j].votes + (if FindOption(votes, id) == Some(j) then 1 else 0)
    ensures r == votes <==> !HasOption(votes, id)
  {
    match FindOption(votes, id)
    case None => votes
    case Some(i) =>
      var r := votes[i := votes[i].(votes := votes[i].votes + 1)];
      assert r[i] != votes[i];
      r
  }

  lemma {:induction false} TallyUpdate(votes: seq<VoteOption>, i: nat, o: VoteOption)
    requires i < |votes|
    ensures Tally(votes[i := o]) + votes[i].votes == Tally(votes) + o.votes
  {
    if i > 0 {
      TallyUpdate(votes[1..], i - 1, o);
      assert votes[i := o][1..] == votes[1..][i - 1 := o];
    }
  }

  /** A vote adds exactly one to the total when the id names an option, and nothing otherwise. */
  lemma {:induction false} TallyAfterVote(votes: seq<VoteOption>, id: string)
    ensures Tally(CastVote(votes, id)) == Tally(votes) + (if HasOption(votes, id) then 1 else 0)
  {
    match FindOption(votes, id)
    case None =>
    case Some(i) =>
      TallyUpdate(votes, i, votes[i].(votes := votes[i].votes + 1));
  }

  // ---------------------------------------------------------------------------
  // Listeners
  // ---------------------------------------------------------------------------

  /** A registered callback. Only its identity matters, as with a JavaScript function value. */
  class Listener {
    constructor ()
    {
    }
  }

  /** The handle `subscribe` returns; handing it to Unsubscribe is calling the returned closure. */
  datatype Subscription = Subscription(listener: Listener)

  /** The calls a listener has received, each with the state in force when it was called. */
  function CallsOf(log: map<Listener, seq<RealtimeState>>, l: Listener): seq<RealtimeState>
  {
    if l in log then log[l] else []
  }

  /** `after` is `before` with one more call, seeing state s, to each of `targets` and to no one else. */
  predicate Notified(before: map<Listener, seq<RealtimeState>>, after: map<Listener, seq<RealtimeState>>,
                     targets: set<Listener>, s: RealtimeState)
  {
    && after.Keys == before.Keys + targets
    && forall l {:trigger after[l]} :: l in after ==> after[l] == if l in targets then CallsOf(before, l) + [s] else CallsOf(before, l)
  }

  /** One notification calls every target exactly once, and leaves every other listener's calls as they were. */
  lemma NotifiedCounts(before: map<Listener, seq<RealtimeState>>, after: map<Listener, seq<RealtimeState>>,
                       targets: set<Listener>, s: RealtimeState, l: Listener)
    requires Notified(before, after, targets, s)
    ensures l in targets ==> |CallsOf(after, l)| == |CallsOf(before, l)| + 1 && CallsOf(after, l)[|CallsOf(before, l)|] == s
    ensures l !in targets ==> CallsOf(after, l) == CallsOf(before, l)
  {
  }

  // ---------------------------------------------------------------------------
  // The store
  // ---------------------------------------------------------------------------

  class RealtimeStore {
    var counter: CounterState
    var chatMessages: seq<ChatMessage>
    var votes: seq<VoteOption>
    var listeners: set<Listener>
    /**
     * For each listener, the calls it has received so far, each recorded with the
     * state it could read at that moment. This stands in for whatever the callback
     * does when called; its length is the number of notifications received.
     */
    var delivered: map<Listener, seq<RealtimeState>>

    /** `getState`: the counter, the chat log and the poll as they are now. */
    function GetState(): (s: RealtimeState)
      reads this
      ensures s.counter == counter && s.chatMessages == chatMessages && s.votes == votes
    {
      RealtimeState(counter, chatMessages, votes)
    }

    predicate Valid()
      reads this
    {
      WellFormed(GetState())
    }

    function Received(l: Listener): seq<RealtimeState>
      reads this
    {
      CallsOf(delivered, l)
    }

    /** The field initialisers; `now` is the clock reading at construction. */
    constructor (now: Millis)
      ensures Valid()
      ensures GetState() == InitialState(now)
      ensures listeners == {} && delivered == map[]
    {
      counter := CounterState(0, now);
      chatMessages := [];
      votes := InitialVotes();
      listeners := {};
      delivered := map[];
    }

    /** `notifyListeners`: call every registered listener once. */
    method NotifyListeners()
      modifies this
      ensures GetState() == old(GetState()) && listeners == old(listeners)
      ensures Notified(old(delivered), delivered, listeners, GetState())
    {
      var pending := listeners;
      while pending != {}
        invariant pending <= listeners
        invariant GetState() == old(GetState()) && listeners == old(listeners)
        invariant Notified(old(delivered), delivered, listeners - pending, GetState())
        decreases pending
      {
        var l :| l in pending;
        delivered := delivered[l := CallsOf(delivered, l) + [GetState()]];
        pending := pending - {l};
      }
    }

    method IncrementCounter(now: Millis) returns (c: CounterState)
      requires Valid()
      modifies this
      ensures Valid()
      ensures counter == CounterState(old(counter.count) + 1, now) && c == counter
      ensures chatMessages == old(chatMessages) && votes == old(votes) && listeners == old(listeners)
      ensures Notified(old(delivered), delivered, listeners, GetState())
    {
      counter := CounterState(counter.count + 1, now);
      NotifyListeners();
      c := counter;
    }

    /** No floor: the count goes below zero when decremented at zero. */
    method DecrementCounter(now: Millis) returns (c: CounterState)
      requires Valid()
      modifies this
      ensures Valid()
      ensures counter == CounterState(old(counter.count) - 1, now) && c == counter
      ensures chatMessages == old(chatMessages) && votes == old(votes) && listeners == old(listeners)
      ensures Notified(old(delivered), delivered, listeners, GetState())
    {
      counter := CounterState(counter.count - 1, now);
      NotifyListeners();
      c := counter;
    }

    method ResetCounter(now: Millis) returns (c: CounterState)
      requires Valid()
      modifies this
      ensures Valid()
      ensures counter == CounterState(0, now) && c == counter
      ensures chatMessages == old(chatMessages) && votes == old(votes) && listeners == old(listeners)
      ensures Notified(old(delivered), delivered, listeners, GetState())
    {
      counter := CounterState(0, now);
      NotifyListeners();
      c := counter;
    }

    /**
     * `addChatMessage`; `id` is the generated message id and `now` the clock
     * reading, both of which the source computes itself.
     */
    method AddChatMessage(username: string, message: string, id: string, now: Millis) returns (m: ChatMessage)
      requires Valid()
      modifies this
      ensures Valid()
      ensures m == ChatMessage(id, username, message, now)
      ensures chatMessages == AppendCapped(old(chatMessages), m)
      ensures counter == old(counter) && votes == old(votes) && listeners == old(listeners)
      ensures Notified(old(delivered), delivered, listeners, GetState())
    {
      m := ChatMessage(id, username, message, now);
      chatMessages := chatMessages + [m];
      if |chatMessages| > MaxChatMessages {
        chatMessages := chatMessages[1..];
      }
      NotifyListeners();
    }

    /** `addVote`: returns the poll, changed only when some option has that id. */
    method AddVote(optionId: string) returns (vs: seq<VoteOption>)
      requires Valid()
      modifies this
      ensures Valid()
      ensures votes == CastVote(old(votes), optionId) && vs == votes
      ensures counter == old(counter) && chatMessages == old(chatMessages) && listeners == old(listeners)
      ensures HasOption(old(votes), optionId) ==> Notified(old(delivered), delivered, listeners, GetState())
      ensures !HasOption(old(votes), optionId) ==> votes == old(votes) && delivered == old(delivered)
    {
      var option := FindOption(votes, optionId);
      if option.Some? {
        var i := option.value;
        votes := votes[i := votes[i].(votes := votes[i].votes + 1)];
        NotifyListeners();
      }
      vs := votes;
    }

    /** `subscribe`: registering a listener twice registers it once. */
    method Subscribe(listener: Listener) returns (unsubscribe: Subscription)
      modifies this
      ensures listeners == old(listeners) + {listener}
      ensures unsubscribe == Subscription(listener)
      ensures GetState() == old(GetState()) && delivered == old(delivered)
    {
      listeners := listeners + {listener};
      unsubscribe := Subscription(listener);
    }

    /** The closure `subscribe` returns: afterwards no notification reaches the listener. */
    method Unsubscribe(unsubscribe: Subscription)
      modifies this
      ensures listeners == old(listeners) - {unsubscribe.listener}
      ensures GetState() == old(GetState()) && delivered == old(delivered)
    {
      listeners := listeners - {unsubscribe.listener};
    }
  }
}
