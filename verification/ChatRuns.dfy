/** Sequences of calls of the chat server on the lists in the heap. */
module ChatRuns {
  import opened Text
  import opened ChatHistory
  import opened Chat

  ghost function SpineOf(room: ChatRoom): (r: set<Participant>)
    reads room
    ensures (forall q <- room.spine :: q in r) && (forall q <- r :: q in room.spine)
  {
    set q | q in room.spine
  }

  /** What every call finds and leaves: sound lists, and members that are known sessions. */
  ghost predicate Sound(room: ChatRoom, sessions: set<ChatSession>)
    reads room, SpineOf(room), sessions, NodesOf(sessions), BlocksOf(sessions)
  {
    room.Valid() && AllValid(sessions) && forall s <- room.members :: s in sessions
  }

  /** The call that an event stands for. */
  method Perform(room: ChatRoom, e: Event<ChatSession>, dst: array<Byte>,
                 ghost sessions: set<ChatSession>, ghost taken: map<ChatSession, seq<Bytes>>)
    returns (ghost after: map<ChatSession, seq<Bytes>>)
    requires Sound(room, sessions) && Allowed(room.View(sessions, taken), e)
    requires dst.Length >= PACKET_SIZE && dst !in BlocksOf(sessions)
    modifies room, SpineOf(room), sessions, NodesOf(sessions), dst
    ensures Sound(room, sessions)
    ensures forall q <- SpineOf(room) :: q in old(SpineOf(room)) || fresh(q)
    ensures forall m <- NodesOf(sessions) :: m in old(NodesOf(sessions)) || fresh(m)
    ensures forall b <- BlocksOf(sessions) :: b in old(BlocksOf(sessions)) || fresh(b)
    ensures room.View(sessions, after) == Happen(old(room.View(sessions, taken)), e)
  {
    hide AllValid, Zeroed, Broadcast, RemoveFirst, Happen, NodesOf, BlocksOf, QueuesOf, SpineOf;
    after := taken;
    match e {
      case Join(who) =>
        var ok := room.Join(who, sessions, taken);
      case Leave(who) =>
        var ok := room.Leave(who, sessions, taken);
      case Say(from, text) =>
        assert Padded(text, |text|) == text;
        room.SendToRoom(from, text, |text|, sessions, taken);
      case Take(who) =>
        TextsFit(sessions, who);
        var length;
        length, after := room.TakeFrom(who, dst, sessions, taken);
    }
  }

  lemma TextsFit(sessions: set<ChatSession>, s: ChatSession)
    requires AllValid(sessions) && s in sessions
    ensures forall text <- s.queue :: |text| <= PACKET_SIZE
  {
    forall i | 0 <= i < |s.queue|
      ensures |s.queue[i]| <= PACKET_SIZE
    {
      assert s.nodes[i].Holds(s.queue[i]);
    }
  }

  /** What `s` popped so far, and what is queued for it. */
  ghost function ReceivedBy(s: ChatSession, taken: map<ChatSession, seq<Bytes>>): seq<Bytes>
    requires s in taken
    reads s
  {
    taken[s] + s.queue
  }

  /** Any sequence of calls: what it does to the lists in the heap is what the events do to
      the room of the history. `buffers[i]` is where call `i` pops to, if it pops. */
  method Play(room: ChatRoom, events: seq<Event<ChatSession>>, buffers: seq<array<Byte>>,
              ghost sessions: set<ChatSession>, ghost taken: map<ChatSession, seq<Bytes>>)
    returns (ghost after: map<ChatSession, seq<Bytes>>)
    requires Sound(room, sessions) && Legal(room.View(sessions, taken), events)
    requires |buffers| == |events|
    requires forall b <- buffers :: b.Length >= PACKET_SIZE && b !in BlocksOf(sessions)
    modifies room, SpineOf(room), sessions, NodesOf(sessions), buffers
    ensures Sound(room, sessions)
    ensures forall q <- SpineOf(room) :: q in old(SpineOf(room)) || fresh(q)
    ensures forall m <- NodesOf(sessions) :: m in old(NodesOf(sessions)) || fresh(m)
    ensures forall b <- BlocksOf(sessions) :: b in old(BlocksOf(sessions)) || fresh(b)
    ensures room.View(sessions, after) == HappenAll(old(room.View(sessions, taken)), events)
  {
    hide Sound, Allowed, Happen, SpineOf, NodesOf, BlocksOf, ChatRoom.View;
    after := taken;
    ghost var start := room.View(sessions, taken);
    assert events[..0] == [];
    for i := 0 to |events|
      invariant Sound(room, sessions)
      invariant forall q <- SpineOf(room) :: q in old(SpineOf(room)) || fresh(q)
      invariant forall m <- NodesOf(sessions) :: m in old(NodesOf(sessions)) || fresh(m)
      invariant forall b <- BlocksOf(sessions) :: b in old(BlocksOf(sessions)) || fresh(b)
      invariant room.View(sessions, after) == HappenAll(start, events[..i])
    {
      assert events[..i + 1][..i] == events[..i];
      after := Perform(room, events[i], buffers[i], sessions, after);
    }
    assert events[..|events|] == events;
  }

  /** The whole chat history in the heap: any sequence of calls, and every session, in the
      room or not, with its own joins and leaves. */
  method PlayAndHear(room: ChatRoom, events: seq<Event<ChatSession>>, buffers: seq<array<Byte>>,
                     ghost sessions: set<ChatSession>, ghost taken: map<ChatSession, seq<Bytes>>)
    returns (ghost after: map<ChatSession, seq<Bytes>>)
    requires Sound(room, sessions) && Legal(room.View(sessions, taken), events)
    requires taken.Keys == sessions && |buffers| == |events|
    requires forall b <- buffers :: b.Length >= PACKET_SIZE && b !in BlocksOf(sessions)
    modifies room, SpineOf(room), sessions, NodesOf(sessions), buffers
    ensures Sound(room, sessions)
    ensures forall s <- sessions :: s in after
    ensures forall s <- sessions ::
      ReceivedBy(s, after) == old(ReceivedBy(s, taken)) + HearsAll(events, s, multiset(old(room.members))[s])
  {
    hide Sound, Legal, HappenAll, HearsAll, SpineOf, NodesOf, BlocksOf;
    ghost var start := room.View(sessions, taken);
    after := Play(room, events, buffers, sessions, taken);
    forall s | s in sessions
      ensures s in after
      ensures ReceivedBy(s, after) == old(ReceivedBy(s, taken)) + HearsAll(events, s, multiset(old(room.members))[s])
    {
      FullHistory(start, events, s);
    }
  }

  /** The chat history in the heap: a session that joins a room it is not in has, after any
      sequence of calls of the others and of its own messages and pops, received each event
      of the others once, in order, and nothing else. */
  method JoinAndStay(room: ChatRoom, s: ChatSession, events: seq<Event<ChatSession>>, buffers: seq<array<Byte>>,
                     ghost sessions: set<ChatSession>, ghost taken: map<ChatSession, seq<Bytes>>)
    returns (ghost after: map<ChatSession, seq<Bytes>>)
    requires Sound(room, sessions) && s in sessions && s in taken && s !in room.members
    requires Legal(Happen(room.View(sessions, taken), Join(s)), events)
    requires forall i :: 0 <= i < |events| ==> !OwnMove(events[i], s)
    requires |buffers| == |events|
    requires forall b <- buffers :: b.Length >= PACKET_SIZE && b !in BlocksOf(sessions)
    modifies room, SpineOf(room), sessions, NodesOf(sessions), buffers
    ensures Sound(room, sessions) && s in after
    ensures ReceivedBy(s, after) == old(ReceivedBy(s, taken)) + Echoes(events, s, 1)
  {
    hide AllValid, Legal, Happen, HappenAll, Echoes, SpineOf, NodesOf, BlocksOf;
    ghost var start := room.View(sessions, taken);
    var ok := room.Join(s, sessions, taken);
    after := Play(room, events, buffers, sessions, taken);
    HistorySinceJoin(start, events, s);
  }

  /** What is pushed to an empty queue is popped next, up to its first zero byte; exactly
      the texts without a later non-zero byte come back as they were. */
  method PushPop(s: ChatSession, msg: Bytes, len: nat, dst: array<Byte>) returns (length: nat)
    requires s.Valid() && s.queue == []
    requires 1 <= len <= PACKET_SIZE && len <= |msg| && len <= dst.Length && dst !in s.blocks
    modifies s, s.nodes, dst
    ensures s.Valid() && s.queue == [] && length == len
    ensures dst[..len] == Zeroed(msg[..len])
    ensures dst[..len] == msg[..len] <==> forall i, j :: 0 <= i < j < len && msg[i] == 0 ==> msg[j] == 0
  {
    var ok := s.Push(msg, len);
    length := s.Pop(dst);
    ZeroedIdentity(msg[..len]);
    assert forall i :: 0 <= i < len ==> msg[..len][i] == msg[i];
  }
}
