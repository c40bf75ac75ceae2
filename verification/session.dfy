/** The chat component's state and the handlers that change it: sending a
    question, stopping, and the stream callbacks applied one event at a
    time to the reply they were created for. */
module Session {
  import opened Wrappers
  import opened Text
  import opened Messages
  import opened Updates
  import opened Profile

  /** The component state the handlers read and write. */
  datatype ChatState = ChatState(
    messages: seq<Message>,
    input: string,
    streaming: bool,
    sessionId: Option<string>,
    userLevel: Json)

  /** What a reply's stream is asked for. */
  datatype Request = Request(message: string, sessionId: Option<string>, userLevel: Json)

  /** The component when it mounts: one settled assistant greeting with id
      "1" and no thought, nothing typed, no stream and no session; the
      learner level is the one read once at mount. */
  function InitialState(level: Json): (r: ChatState)
    ensures |r.messages| == 1
    ensures r.messages[0].id == "1" && r.messages[0].role == Assistant
    ensures r.messages[0].content != "" && r.messages[0].thought.None?
    ensures !IsLoading(r.messages[0])
    ensures r.input == "" && !r.streaming && r.sessionId.None? && r.userLevel == level
  {
    ChatState([Greeting], "", false, None, level)
  }

  /** Ids are a time stamp plus a role suffix. */
  function UserId(stamp: string): string { stamp + "-user" }

  function ReplyId(stamp: string): string { stamp + "-ai" }

  /** A question's id and a reply's id never coincide, whatever the stamps:
      they end in different characters. */
  lemma UserAndReplyIdsDiffer(userStamp: string, aiStamp: string)
    ensures UserId(userStamp) != ReplyId(aiStamp)
  {
    var u := UserId(userStamp);
    var a := ReplyId(aiStamp);
    assert u[|u| - 1] == 'r';
    assert a[|a| - 1] == 'i';
  }

  /** The guard of `handleSend`: a question is taken only when the input is
      not blank and no reply is streaming. */
  predicate AcceptsInput(s: ChatState)
  {
    Trim(s.input) != "" && !s.streaming
  }

  /** `handleSend` up to starting the reply: None when the guard returns
      early; otherwise the input, untrimmed, is appended as exactly one user
      entry and the input box is cleared. */
  function Send(s: ChatState, userStamp: string): (r: Option<ChatState>)
    ensures r.None? <==> AllSpace(s.input) || s.streaming
    ensures r.Some? ==>
      && |r.value.messages| == |s.messages| + 1
      && r.value.messages[..|s.messages|] == s.messages
      && r.value.messages[|s.messages|] == Message(UserId(userStamp), User, s.input, None, None)
      && r.value.input == ""
      && r.value.streaming == s.streaming
      && r.value.sessionId == s.sessionId
      && r.value.userLevel == s.userLevel
  {
    if !AcceptsInput(s) then None
    else Some(s.(messages := s.messages + [Message(UserId(userStamp), User, s.input, None, None)],
                 input := ""))
  }

  /** `handleRealStreamResponse` before the stream call: the reply starts
      streaming with its placeholder appended. */
  function StartResponse(s: ChatState, aiStamp: string): (r: ChatState)
    ensures r.streaming
    ensures r.messages == AppendPlaceholder(s.messages, ReplyId(aiStamp))
    ensures r.input == s.input && r.sessionId == s.sessionId && r.userLevel == s.userLevel
  {
    s.(streaming := true, messages := AppendPlaceholder(s.messages, ReplyId(aiStamp)))
  }

  /** `handleSend` in full: either nothing happens, or the question and the
      reply placeholder are appended, the input is cleared, the reply is
      streaming, and the stream is asked for the untrimmed question with the
      current session id and the learner level. */
  function HandleSend(s: ChatState, userStamp: string, aiStamp: string): (r: Option<(ChatState, Request)>)
    ensures r.None? <==> AllSpace(s.input) || s.streaming
    ensures r.Some? ==>
      var (s', req) := r.value;
      && |s'.messages| == |s.messages| + 2
      && s'.messages[..|s.messages|] == s.messages
      && s'.messages[|s.messages|] == Message(UserId(userStamp), User, s.input, None, None)
      && s'.messages[|s.messages| + 1] == Placeholder(ReplyId(aiStamp))
      && s'.input == "" && s'.streaming
      && s'.sessionId == s.sessionId && s'.userLevel == s.userLevel
      && req == Request(s.input, s.sessionId, s.userLevel)
  {
    match Send(s, userStamp)
    case None => None
    case Some(s1) =>
      assert s1.messages[|s.messages|] == Message(UserId(userStamp), User, s.input, None, None);
      var s2 := StartResponse(s1, aiStamp);
      assert s2.messages[..|s.messages|] == s1.messages[..|s.messages|];
      Some((s2, Request(s.input, s.sessionId, s.userLevel)))
  }

  /** `handleStop`: only the streaming flag is cleared. */
  function HandleStop(s: ChatState): (r: ChatState)
    ensures !r.streaming
    ensures r.messages == s.messages && r.input == s.input
    ensures r.sessionId == s.sessionId && r.userLevel == s.userLevel
  {
    s.(streaming := false)
  }

  /** One stream event for the reply `target`. */
  function Step(s: ChatState, target: string, e: Event): (r: ChatState)
    ensures r.messages == ApplyEvent(s.messages, target, e)
    ensures r.streaming == (s.streaming && !EndsStream(e))
    ensures r.sessionId == (if e.SessionIdReceived? then Some(e.sessionId) else s.sessionId)
    ensures r.input == s.input && r.userLevel == s.userLevel
  {
    match e
    case Chunk(_) => s.(messages := ApplyEvent(s.messages, target, e))
    case Thought(_) => s.(messages := ApplyEvent(s.messages, target, e))
    case Done => s.(streaming := false)
    case StreamError => s.(streaming := false, messages := ApplyEvent(s.messages, target, e))
    case SessionIdReceived(id) => s.(sessionId := Some(id))
    case Rejected => s.(streaming := false)
  }

  /** The events that clear the streaming flag. */
  predicate EndsStream(e: Event)
  {
    e.Done? || e.StreamError? || e.Rejected?
  }

  /** Some event of the run clears the streaming flag. */
  predicate AnyEnds(events: seq<Event>)
  {
    exists i :: 0 <= i < |events| && EndsStream(events[i])
  }

  /** The session id after a run of events: the last one received, or the
      one held before. */
  function LastSessionId(events: seq<Event>, init: Option<string>): Option<string>
  {
    if events == [] then init
    else LastSessionId(events[1..],
           if events[0].SessionIdReceived? then Some(events[0].sessionId) else init)
  }

  /** A run of events for the reply `target`, in arrival order. */
  function Run(s: ChatState, target: string, events: seq<Event>): ChatState
    decreases |events|
  {
    if events == [] then s else Run(Step(s, target, events[0]), target, events[1..])
  }

  /** A run of events: the list keeps its length, every entry evolves on its
      own, the stream stops streaming exactly when some event ends it, the
      last session id received is kept, and the input box is untouched. */
  lemma {:induction false} RunEffect(s: ChatState, target: string, events: seq<Event>)
    ensures Run(s, target, events).messages == ApplyEvents(s.messages, target, events)
    ensures Run(s, target, events).streaming == (s.streaming && !AnyEnds(events))
    ensures Run(s, target, events).sessionId == LastSessionId(events, s.sessionId)
    ensures Run(s, target, events).input == s.input
    ensures Run(s, target, events).userLevel == s.userLevel
    decreases |events|
  {
    if events != [] {
      RunEffect(Step(s, target, events[0]), target, events[1..]);
      assert AnyEnds(events) <==> EndsStream(events[0]) || AnyEnds(events[1..]) by {
        if AnyEnds(events[1..]) {
          var i :| 0 <= i < |events[1..]| && EndsStream(events[1..][i]);
          assert EndsStream(events[i + 1]);
        }
        if AnyEnds(events) && !EndsStream(events[0]) {
          var i :| 0 <= i < |events| && EndsStream(events[i]);
          assert events[1..][i - 1] == events[i];
        }
      }
    }
  }

  /** Stopping does not cancel a reply: the callbacks never look at the
      streaming flag, so the same events leave the transcript exactly as
      they would have without the stop. */
  lemma StopKeepsUpdating(s: ChatState, target: string, events: seq<Event>)
    ensures Run(HandleStop(s), target, events).messages == Run(s, target, events).messages
    ensures !Run(HandleStop(s), target, events).streaming
  {
    RunEffect(s, target, events);
    RunEffect(HandleStop(s), target, events);
  }

  /** The state after an accepted send and a run of events for its reply. */
  function Turn(s: ChatState, userStamp: string, aiStamp: string, events: seq<Event>): ChatState
    requires !AllSpace(s.input) && !s.streaming
  {
    Run(HandleSend(s, userStamp, aiStamp).value.0, ReplyId(aiStamp), events)
  }

  /** One question-and-answer turn: after a send that is accepted and a run
      of stream events, the transcript is the old one plus the question and
      the reply; the reply's content is every chunk and error notice in
      arrival order, its thought every thought chunk, its loading flag the
      one the last such event set; the question is never touched by the
      stream; when the reply id is new, every older entry is unchanged; and
      the session id the next request carries is the last one received. */
  lemma {:induction false} ConversationTurn(s: ChatState, userStamp: string, aiStamp: string, events: seq<Event>)
    requires !AllSpace(s.input) && !s.streaming
    ensures HandleSend(s, userStamp, aiStamp).Some?
    ensures
      var t := Turn(s, userStamp, aiStamp, events);
      var n := |s.messages|;
      && |t.messages| == n + 2
      && t.messages[n] == Message(UserId(userStamp), User, s.input, None, None)
      && t.messages[n + 1] == Message(ReplyId(aiStamp), Assistant, ContentText(events),
                                       Some(ThoughtText(events)), LoadingAfter(events, Some(true)))
      && (!HasId(s.messages, ReplyId(aiStamp)) ==> t.messages[..n] == s.messages)
      && t.streaming == !AnyEnds(events)
      && t.input == ""
      && t.sessionId == LastSessionId(events, s.sessionId)
      && t.userLevel == s.userLevel
  {
    var n := |s.messages|;
    var target := ReplyId(aiStamp);
    var user := Message(UserId(userStamp), User, s.input, None, None);
    var s1 := HandleSend(s, userStamp, aiStamp).value.0;
    assert |s1.messages| == n + 2 && s1.messages[n] == user;
    assert s1.messages[n + 1] == Placeholder(target);
    var t := Turn(s, userStamp, aiStamp, events);
    assert t == Run(s1, target, events);
    RunEffect(s1, target, events);
    ApplyEventsPointwise(s1.messages, target, events);
    assert t.messages == ApplyEvents(s1.messages, target, events);
    UserAndReplyIdsDiffer(userStamp, aiStamp);
    EvolveOther(user, target, events);
    assert t.messages[n] == user;
    ReplyAfterEvents(target, events);
    assert t.messages[n + 1] == Evolve(Placeholder(target), target, events);
    if !HasId(s.messages, target) {
      forall i | 0 <= i < n ensures t.messages[i] == s.messages[i] {
        assert s1.messages[i] == s.messages[i];
        EvolveOther(s.messages[i], target, events);
      }
    }
  }

  /** No reply id is the greeting's id "1": a reply id is at least three
      characters long. */
  lemma GreetingIdIsNoReplyId(stamp: string)
    ensures ReplyId(stamp) != Greeting.id
  {
  }

  /** The first turn after mounting never touches the greeting: it stays the
      first entry, exactly as it was, whatever the stream sends. */
  lemma GreetingSurvivesFirstTurn(level: Json, question: string, userStamp: string,
                                  aiStamp: string, events: seq<Event>)
    requires !AllSpace(question)
    ensures
      var s := InitialState(level).(input := question);
      var t := Turn(s, userStamp, aiStamp, events);
      && |t.messages| == 3
      && t.messages[0] == InitialState(level).messages[0]
  {
    var s := InitialState(level).(input := question);
    GreetingIdIsNoReplyId(aiStamp);
    assert !HasId(s.messages, ReplyId(aiStamp)) by {
      assert |s.messages| == 1 && s.messages[0].id == Greeting.id;
    }
    ConversationTurn(s, userStamp, aiStamp, events);
    var t := Turn(s, userStamp, aiStamp, events);
    assert t.messages[..1] == s.messages;
    assert t.messages[0] == t.messages[..1][0];
  }
}
