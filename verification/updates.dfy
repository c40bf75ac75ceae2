/** The functional updates the streaming callbacks apply to the message
    list: start a reply with an empty assistant placeholder, then for each
    stream event rewrite every entry whose id is the reply's id. */
module Updates {
  import opened Wrappers
  import opened Messages

  /** Appended to a reply's text when the stream reports an error. */
  const ErrorSuffix: string := "\n\n\U{26A0}\U{FE0F} *网络连接中断*"

  /** The callbacks the stream is given, as events in arrival order.
      `Rejected` is the stream call itself failing. */
  datatype Event =
    | Chunk(text: string)
    | Thought(text: string)
    | Done
    | StreamError
    | SessionIdReceived(sessionId: string)
    | Rejected

  /** The empty assistant entry a new reply starts from. */
  function Placeholder(id: string): Message
  {
    Message(id, Assistant, "", Some(""), Some(true))
  }

  /** Starting a reply: exactly one new entry at the end, the empty
      assistant placeholder, with every earlier entry kept in order. */
  function AppendPlaceholder(msgs: seq<Message>, id: string): (r: seq<Message>)
    ensures |r| == |msgs| + 1 && r[..|msgs|] == msgs
    ensures r[|msgs|].id == id && r[|msgs|].role == Assistant
    ensures r[|msgs|].content == "" && r[|msgs|].thought == Some("")
    ensures IsLoading(r[|msgs|])
  {
    msgs + [Placeholder(id)]
  }

  /** The per-entry rewrites of the three list-changing callbacks. */
  function WithChunk(m: Message, chunk: string): Message
  {
    m.(content := m.content + chunk, loading := Some(false))
  }

  function WithThought(m: Message, chunk: string): Message
  {
    m.(thought := Some(ThoughtOrEmpty(m) + chunk), loading := Some(true))
  }

  function WithError(m: Message): Message
  {
    m.(content := m.content + ErrorSuffix, loading := Some(false))
  }

  /** `prev.map(msg => msg.id === target ? f(msg) : msg)`. */
  function MapTarget(msgs: seq<Message>, target: string, f: Message -> Message): (r: seq<Message>)
    ensures |r| == |msgs|
    ensures forall i :: 0 <= i < |msgs| && msgs[i].id == target ==> r[i] == f(msgs[i])
    ensures forall i :: 0 <= i < |msgs| && msgs[i].id != target ==> r[i] == msgs[i]
  {
    if msgs == [] then []
    else [if msgs[0].id == target then f(msgs[0]) else msgs[0]] + MapTarget(msgs[1..], target, f)
  }

  /** A text chunk: every entry with the target id gets the chunk appended
      to its content and stops loading; nothing else changes. */
  function ApplyChunk(msgs: seq<Message>, target: string, chunk: string): (r: seq<Message>)
    ensures |r| == |msgs|
    ensures forall i :: 0 <= i < |msgs| && msgs[i].id != target ==> r[i] == msgs[i]
    ensures forall i :: 0 <= i < |msgs| && msgs[i].id == target ==>
      && r[i].id == target && r[i].role == msgs[i].role
      && r[i].content == msgs[i].content + chunk
      && r[i].thought == msgs[i].thought
      && r[i].loading == Some(false)
  {
    MapTarget(msgs, target, m => WithChunk(m, chunk))
  }

  /** A thought chunk: every entry with the target id gets the chunk
      appended to its thought (an absent thought counting as "") and is
      loading again; its content is untouched and nothing else changes. */
  function ApplyThought(msgs: seq<Message>, target: string, chunk: string): (r: seq<Message>)
    ensures |r| == |msgs|
    ensures forall i :: 0 <= i < |msgs| && msgs[i].id != target ==> r[i] == msgs[i]
    ensures forall i :: 0 <= i < |msgs| && msgs[i].id == target ==>
      && r[i].id == target && r[i].role == msgs[i].role
      && r[i].content == msgs[i].content
      && r[i].thought == Some(ThoughtOrEmpty(msgs[i]) + chunk)
      && r[i].loading == Some(true)
  {
    MapTarget(msgs, target, m => WithThought(m, chunk))
  }

  /** A stream error: every entry with the target id gets the interruption
      notice appended to its content and stops loading. */
  function ApplyError(msgs: seq<Message>, target: string): (r: seq<Message>)
    ensures |r| == |msgs|
    ensures forall i :: 0 <= i < |msgs| && msgs[i].id != target ==> r[i] == msgs[i]
    ensures forall i :: 0 <= i < |msgs| && msgs[i].id == target ==>
      && r[i].id == target && r[i].role == msgs[i].role
      && r[i].content == msgs[i].content + ErrorSuffix
      && r[i].thought == msgs[i].thought
      && r[i].loading == Some(false)
  {
    MapTarget(msgs, target, WithError)
  }

  /** The message-list effect of one event. */
  function ApplyEvent(msgs: seq<Message>, target: string, e: Event): seq<Message>
  {
    match e
    case Chunk(t) => ApplyChunk(msgs, target, t)
    case Thought(t) => ApplyThought(msgs, target, t)
    case StreamError => ApplyError(msgs, target)
    case _ => msgs
  }

  /** The message-list effect of a run of events, in arrival order. */
  function ApplyEvents(msgs: seq<Message>, target: string, events: seq<Event>): seq<Message>
    decreases |events|
  {
    if events == [] then msgs
    else ApplyEvents(ApplyEvent(msgs, target, events[0]), target, events[1..])
  }

  // ---- Reference description of a reply, one entry at a time ----

  /** What one event does to one entry. */
  function UpdateOne(m: Message, target: string, e: Event): Message
  {
    if m.id != target then m
    else
      match e
      case Chunk(t) => WithChunk(m, t)
      case Thought(t) => WithThought(m, t)
      case StreamError => WithError(m)
      case _ => m
  }

  /** One entry after a run of events. */
  function Evolve(m: Message, target: string, events: seq<Event>): Message
    decreases |events|
  {
    if events == [] then m
    else Evolve(UpdateOne(m, target, events[0]), target, events[1..])
  }

  /** The text one event adds to a reply's content. */
  function ContentOf(e: Event): string
  {
    match e
    case Chunk(t) => t
    case StreamError => ErrorSuffix
    case _ => ""
  }

  /** The text one event adds to a reply's thought. */
  function ThoughtOf(e: Event): string
  {
    if e.Thought? then e.text else ""
  }

  /** The reply's `loading` after one event that found it at `init`. */
  function LoadingOf(e: Event, init: Option<bool>): Option<bool>
  {
    match e
    case Chunk(_) => Some(false)
    case StreamError => Some(false)
    case Thought(_) => Some(true)
    case _ => init
  }

  /** The text a run of events adds to a reply's content: every chunk and
      every error notice, in arrival order. */
  function ContentText(events: seq<Event>): string
  {
    if events == [] then "" else ContentOf(events[0]) + ContentText(events[1..])
  }

  /** The text a run of events adds to a reply's thought. */
  function ThoughtText(events: seq<Event>): string
  {
    if events == [] then "" else ThoughtOf(events[0]) + ThoughtText(events[1..])
  }

  /** The reply's `loading` after a run of events that found it at `init`:
      set by the last chunk, thought or error, otherwise unchanged. */
  function LoadingAfter(events: seq<Event>, init: Option<bool>): Option<bool>
  {
    if events == [] then init else LoadingAfter(events[1..], LoadingOf(events[0], init))
  }

  /** One event on the reply: the three callbacks' rewrites, stated through
      what each event contributes. */
  lemma UpdateOneTarget(m: Message, target: string, e: Event)
    requires m.id == target
    ensures UpdateOne(m, target, e).id == target
    ensures UpdateOne(m, target, e).role == m.role
    ensures UpdateOne(m, target, e).content == m.content + ContentOf(e)
    ensures ThoughtOrEmpty(UpdateOne(m, target, e)) == ThoughtOrEmpty(m) + ThoughtOf(e)
    ensures m.thought.Some? ==>
      UpdateOne(m, target, e).thought == Some(m.thought.value + ThoughtOf(e))
    ensures UpdateOne(m, target, e).loading == LoadingOf(e, m.loading)
  {
  }

  /** Only the list-changing events name the reply; the rest leave it alone. */
  lemma {:induction false} EvolveOther(m: Message, target: string, events: seq<Event>)
    requires m.id != target
    ensures Evolve(m, target, events) == m
    decreases |events|
  {
    if events != [] {
      EvolveOther(m, target, events[1..]);
    }
  }

  /** The reply after a run of events: its content has every chunk and
      error notice appended in arrival order, its thought every thought
      chunk, and its loading flag follows the last such event. */
  lemma {:induction false} EvolveTarget(m: Message, target: string, events: seq<Event>)
    requires m.id == target
    ensures Evolve(m, target, events).id == target
    ensures Evolve(m, target, events).role == m.role
    ensures Evolve(m, target, events).content == m.content + ContentText(events)
    ensures ThoughtOrEmpty(Evolve(m, target, events)) == ThoughtOrEmpty(m) + ThoughtText(events)
    ensures m.thought.Some? ==>
      Evolve(m, target, events).thought == Some(m.thought.value + ThoughtText(events))
    ensures Evolve(m, target, events).loading == LoadingAfter(events, m.loading)
    decreases |events|
  {
    if events != [] {
      var m' := UpdateOne(m, target, events[0]);
      UpdateOneTarget(m, target, events[0]);
      EvolveTarget(m', target, events[1..]);
      assert Evolve(m, target, events) == Evolve(m', target, events[1..]);
      assert ContentText(events) == ContentOf(events[0]) + ContentText(events[1..]);
      assert ThoughtText(events) == ThoughtOf(events[0]) + ThoughtText(events[1..]);
      assert (m.content + ContentOf(events[0])) + ContentText(events[1..])
          == m.content + ContentText(events);
    }
  }

  /** Applying a run of events to the list is the same as evolving every
      entry on its own: the list keeps its length and order. */
  lemma {:induction false} ApplyEventsPointwise(msgs: seq<Message>, target: string, events: seq<Event>)
    ensures |ApplyEvents(msgs, target, events)| == |msgs|
    ensures forall i :: 0 <= i < |msgs| ==>
      ApplyEvents(msgs, target, events)[i] == Evolve(msgs[i], target, events)
    decreases |events|
  {
    if events != [] {
      var next := ApplyEvent(msgs, target, events[0]);
      assert |next| == |msgs|;
      assert forall i :: 0 <= i < |msgs| ==> next[i] == UpdateOne(msgs[i], target, events[0]);
      ApplyEventsPointwise(next, target, events[1..]);
    }
  }

  /** After a run of events the list holds the same ids in the same order,
      so later events keep finding the same entries. */
  lemma {:induction false} ApplyEventsKeepsIds(msgs: seq<Message>, target: string, events: seq<Event>)
    ensures |ApplyEvents(msgs, target, events)| == |msgs|
    ensures forall i :: 0 <= i < |msgs| ==> ApplyEvents(msgs, target, events)[i].id == msgs[i].id
    ensures forall i :: 0 <= i < |msgs| ==> ApplyEvents(msgs, target, events)[i].role == msgs[i].role
  {
    ApplyEventsPointwise(msgs, target, events);
    forall i | 0 <= i < |msgs|
      ensures ApplyEvents(msgs, target, events)[i].id == msgs[i].id
      ensures ApplyEvents(msgs, target, events)[i].role == msgs[i].role
    {
      if msgs[i].id == target { EvolveTarget(msgs[i], target, events); }
      else { EvolveOther(msgs[i], target, events); }
    }
  }

  /** A reply started from the placeholder, after a run of events: its
      content is every chunk and error notice in arrival order, its thought
      every thought chunk, its loading flag the one the last such event set
      (still loading when there was none). */
  lemma ReplyAfterEvents(id: string, events: seq<Event>)
    ensures Evolve(Placeholder(id), id, events)
         == Message(id, Assistant, ContentText(events), Some(ThoughtText(events)),
                    LoadingAfter(events, Some(true)))
  {
    EvolveTarget(Placeholder(id), id, events);
    assert "" + ContentText(events) == ContentText(events);
    assert "" + ThoughtText(events) == ThoughtText(events);
  }

  /** A reply fed only text chunks reads as their concatenation, with no
      thought, and has stopped loading once any chunk arrived. */
  lemma ChunksConcatenate(id: string, chunks: seq<string>)
    ensures Evolve(Placeholder(id), id, ChunkEvents(chunks)).content == Concat(chunks)
    ensures Evolve(Placeholder(id), id, ChunkEvents(chunks)).thought == Some("")
    ensures chunks != [] ==> !IsLoading(Evolve(Placeholder(id), id, ChunkEvents(chunks)))
  {
    ReplyAfterEvents(id, ChunkEvents(chunks));
    ChunkText(chunks);
    ChunkLoading(chunks, Some(true));
  }

  function ChunkEvents(chunks: seq<string>): (r: seq<Event>)
    ensures |r| == |chunks|
  {
    if chunks == [] then [] else [Chunk(chunks[0])] + ChunkEvents(chunks[1..])
  }

  function Concat(chunks: seq<string>): string
  {
    if chunks == [] then "" else chunks[0] + Concat(chunks[1..])
  }

  lemma {:induction false} ChunkLoading(chunks: seq<string>, init: Option<bool>)
    ensures LoadingAfter(ChunkEvents(chunks), init) == (if chunks == [] then init else Some(false))
  {
    if chunks != [] {
      ChunkLoading(chunks[1..], Some(false));
      assert ChunkEvents(chunks)[1..] == ChunkEvents(chunks[1..]);
    }
  }

  lemma {:induction false} ChunkText(chunks: seq<string>)
    ensures ContentText(ChunkEvents(chunks)) == Concat(chunks)
    ensures ThoughtText(ChunkEvents(chunks)) == ""
  {
    if chunks != [] {
      ChunkText(chunks[1..]);
      assert ChunkEvents(chunks)[1..] == ChunkEvents(chunks[1..]);
    }
  }
}
