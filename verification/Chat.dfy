/** The queues and the room of examples/chat/chat-server.c: linked lists in the heap. */
module Chat {
  import opened Text
  import opened ChatHistory

  class Message {
    const buffer: array<Byte>
    const length: nat
    ghost const owner: ChatSession
    var next: Message?

    constructor (length: nat, ghost owner: ChatSession)
      ensures this.length == length && next == null && this.owner == owner
      ensures buffer.Length == PACKET_SIZE && fresh(buffer)
    {
      this.length := length;
      this.owner := owner;
      next := null;
      buffer := new Byte[PACKET_SIZE];
    }

    /** The first `length` bytes of the buffer are `text`. */
    ghost predicate Holds(text: Bytes)
      reads buffer
    {
      && buffer.Length == PACKET_SIZE
      && 1 <= length <= PACKET_SIZE
      && text == buffer[..length]
      && Zeroed(text) == text
    }
  }

  /** The message behind position `i` of a list. */
  ghost function After(nodes: seq<Message>, i: nat): Message? {
    if i + 1 < |nodes| then nodes[i + 1] else null
  }

  /** `nodes` is the list that starts at `writeMessages`, `queue` the texts it holds. */
  class ChatSession {
    var writeMessages: Message?
    ghost var nodes: seq<Message>
    ghost var queue: seq<Bytes>
    ghost var blocks: set<array<Byte>>

    ghost predicate Valid()
      reads this, nodes, blocks
    {
      && writeMessages == (if nodes == [] then null else nodes[0])
      && |queue| == |nodes|
      && (forall i, j :: 0 <= i < j < |nodes| ==> nodes[i] != nodes[j])
      && (forall i {:trigger After(nodes, i)} :: 0 <= i < |nodes| ==> nodes[i].next == After(nodes, i))
      && (forall i :: 0 <= i < |nodes| ==>
        nodes[i].owner == this && nodes[i].buffer in blocks && nodes[i].Holds(queue[i]))
    }

    constructor ()
      ensures Valid() && queue == [] && nodes == [] && blocks == {}
    {
      writeMessages := null;
      nodes, queue := [], [];
      blocks := {};
    }

    /** The loop of `push` that looks for the end of the list. */
    method FindTail() returns (current: Message)
      requires Valid() && writeMessages != null
      ensures nodes != [] && current == nodes[|nodes| - 1]
    {
      current := writeMessages;
      ghost var k := 0;
      while current.next != null
        invariant 0 <= k < |nodes| && current == nodes[k]
        decreases |nodes| - k
      {
        assert nodes[k].next == After(nodes, k);
        current := current.next;
        k := k + 1;
      }
      assert nodes[k].next == After(nodes, k);
    }

    /** Links a new message behind the last one. */
    method Append(newMsg: Message, ghost text: Bytes)
      requires Valid() && newMsg !in nodes && newMsg.next == null
      requires newMsg.owner == this && newMsg.Holds(text)
      modifies this, nodes
      ensures Valid() && nodes == old(nodes) + [newMsg] && queue == old(queue) + [text]
      ensures blocks == old(blocks) + {newMsg.buffer}
    {
      hide Message.Holds, Zeroed;
      if writeMessages == null {
        writeMessages := newMsg;
      } else {
        var current := FindTail();
        current.next := newMsg;
      }
      ghost var was := nodes;
      nodes, queue := nodes + [newMsg], queue + [text];
      blocks := blocks + {newMsg.buffer};
      assert forall i :: 0 <= i < |was| - 1 ==> After(nodes, i) == After(was, i);
    }

    /** `push`. */
    method Push(msg: Bytes, len: nat) returns (ok: int)
      requires Valid() && len <= PACKET_SIZE && (len <= |msg| || 0 in msg)
      modifies this, nodes
      ensures Valid()
      ensures len == 0 ==> ok == 0 && queue == old(queue) && nodes == old(nodes)
      ensures len > 0 ==> ok == 1 && queue == old(queue) + [Zeroed(Padded(msg, len))]
      ensures forall m <- nodes :: m in old(nodes) || fresh(m)
      ensures forall b <- blocks :: b in old(blocks) || fresh(b)
    {
      if len == 0 {
        return 0;
      }
      var newMsg := new Message(len, this);
      StrNCpy(newMsg.buffer, msg, len);
      ZeroedTwice(Padded(msg, len));
      Append(newMsg, Zeroed(Padded(msg, len)));
      return 1;
    }

    /** The first half of `pop`: the head of the list is unlinked. */
    method Unlink() returns (current: Message)
      requires Valid() && nodes != []
      modifies this
      ensures Valid() && nodes == old(nodes)[1..] && queue == old(queue)[1..] && blocks == old(blocks)
      ensures current == old(nodes)[0] && current.Holds(old(queue)[0])
    {
      hide Message.Holds, Zeroed;
      current := writeMessages;
      assert nodes[0].next == After(nodes, 0);
      if current.next != null {
        writeMessages := current.next;
      } else {
        writeMessages := null;
      }
      ghost var was := nodes;
      nodes, queue := nodes[1..], queue[1..];
      assert forall i :: 0 <= i < |nodes| ==> After(nodes, i) == After(was, i + 1);
    }

    /** `pop`; the freed message has left the list. */
    method Pop(dst: array<Byte>) returns (length: nat)
      requires Valid() && (queue != [] ==> |queue[0]| <= dst.Length)
      requires dst !in blocks
      modifies this, dst
      ensures Valid() && length <= dst.Length && blocks == old(blocks)
      ensures forall m <- nodes :: m in old(nodes)
      ensures old(queue) == [] ==> length == 0 && queue == [] && nodes == old(nodes) && dst[..] == old(dst[..])
      ensures old(queue) != [] ==>
        && length == |old(queue)[0]| >= 1
        && dst[..length] == old(queue)[0] && dst[length..] == old(dst[|queue[0]|..])
        && queue == old(queue)[1..] && nodes == old(nodes)[1..]
    {
      hide Zeroed;
      if writeMessages == null {
        return 0;
      }
      var current := Unlink();
      length := current.length;
      assert current.buffer[..][..length] == old(queue)[0];
      StrNCpy(dst, current.buffer[..], length);
    }
  }

  // ---- All sessions of a server together ----

  ghost function NodesOf(sessions: set<ChatSession>): (r: set<Message>)
    reads sessions
    ensures forall s, m :: s in sessions && m in s.nodes ==> m in r
  {
    set s, m | s in sessions && m in s.nodes :: m
  }

  ghost function BlocksOf(sessions: set<ChatSession>): (r: set<array<Byte>>)
    reads sessions
    ensures forall s, b :: s in sessions && b in s.blocks ==> b in r
  {
    set s, b | s in sessions && b in s.blocks :: b
  }

  ghost function QueuesOf(sessions: set<ChatSession>): (r: map<ChatSession, seq<Bytes>>)
    reads sessions
    ensures r.Keys == sessions
  {
    map s | s in sessions :: s.queue
  }

  ghost predicate AllValid(sessions: set<ChatSession>)
    reads sessions, NodesOf(sessions), BlocksOf(sessions)
  {
    forall s <- sessions :: s.Valid()
  }

  /** Two queues have no message in common. */
  lemma QueuesDisjoint(s: ChatSession, t: ChatSession)
    requires s.Valid() && t.Valid() && s != t
    ensures forall m <- s.nodes :: m !in t.nodes
  {
  }

  /** A queue that nobody writes stays valid. */
  twostate lemma Untouched(s: ChatSession)
    requires old(s.Valid()) && unchanged(s) && unchanged(s.blocks)
    requires forall m | m in old(s.nodes) :: m.next == old(m.next)
    ensures s.Valid()
  {
    hide Message.Holds;
  }

  twostate lemma AllUntouched(sessions: set<ChatSession>)
    requires old(AllValid(sessions)) && unchanged(sessions)
    requires unchanged(old(NodesOf(sessions))) && unchanged(old(BlocksOf(sessions)))
    ensures AllValid(sessions) && QueuesOf(sessions) == old(QueuesOf(sessions))
  {
    forall s | s in sessions
      ensures s.Valid()
    {
      Untouched(s);
    }
  }

  /** The sender hears nothing; NULL is nobody. */
  ghost function Muted(session: ChatSession?): set<ChatSession> {
    if session == null then {} else {session}
  }

  /** One more text for one session. */
  ghost function Deposit(queues: map<ChatSession, seq<Bytes>>, target: ChatSession, text: Bytes)
    : map<ChatSession, seq<Bytes>>
    requires target in queues
  {
    if text == [] then queues else queues[target := queues[target] + [Zeroed(text)]]
  }

  lemma SameQueues(a: map<ChatSession, seq<Bytes>>, b: map<ChatSession, seq<Bytes>>)
    requires a.Keys == b.Keys && forall s | s in a :: a[s] == b[s]
    ensures a == b
  {
  }

  lemma BroadcastNobody(queues: map<ChatSession, seq<Bytes>>, muted: set<ChatSession>, text: Bytes)
    ensures Broadcast(queues, [], muted, text) == queues
  {
    forall s | s in queues
      ensures Heard([], s, s in muted, text) == []
    {
    }
    SameQueues(Broadcast(queues, [], muted, text), queues);
  }

  /** Nothing is queued for the sender or for a session outside the room. */
  lemma SilentFor(queues: map<ChatSession, seq<Bytes>>, members: seq<ChatSession>,
                  muted: set<ChatSession>, text: Bytes, s: ChatSession)
    requires s in queues && (s in muted || s !in members)
    ensures Broadcast(queues, members, muted, text)[s] == queues[s]
  {
    assert s !in members ==> multiset(members)[s] == 0;
  }

  lemma HeardNext(members: seq<ChatSession>, k: nat, s: ChatSession, muted: bool, text: Bytes)
    requires k < |members|
    ensures Heard(members[..k + 1], s, muted, text) == Heard(members[..k], s, muted, text)
      + if s == members[k] && !muted && text != [] then [Zeroed(text)] else []
  {
    hide Zeroed;
    assert members[..k + 1] == members[..k] + [members[k]];
  }

  /** One more participant gets one more copy. */
  lemma BroadcastNext(queues: map<ChatSession, seq<Bytes>>, members: seq<ChatSession>, k: nat,
                      muted: set<ChatSession>, text: Bytes)
    requires k < |members| && members[k] in queues
    ensures var b := Broadcast(queues, members[..k], muted, text);
      Broadcast(queues, members[..k + 1], muted, text)
      == if members[k] in muted then b else Deposit(b, members[k], text)
  {
    hide Heard, Zeroed;
    forall s | s in queues
      ensures Heard(members[..k + 1], s, s in muted, text) == Heard(members[..k], s, s in muted, text)
        + if s == members[k] && s !in muted && text != [] then [Zeroed(text)] else []
    {
      HeardNext(members, k, s, s in muted, text);
    }
    var b := Broadcast(queues, members[..k], muted, text);
    SameQueues(Broadcast(queues, members[..k + 1], muted, text),
               if members[k] in muted then b else Deposit(b, members[k], text));
  }

  /** `push` onto one of many queues leaves the others alone. */
  method SendOne(target: ChatSession, msg: Bytes, len: nat, ghost sessions: set<ChatSession>)
    requires AllValid(sessions) && target in sessions
    requires len <= PACKET_SIZE && (len <= |msg| || 0 in msg)
    modifies target, target.nodes
    ensures AllValid(sessions)
    ensures forall m <- NodesOf(sessions) :: m in old(NodesOf(sessions)) || fresh(m)
    ensures forall b <- BlocksOf(sessions) :: b in old(BlocksOf(sessions)) || fresh(b)
    ensures QueuesOf(sessions) == Deposit(old(QueuesOf(sessions)), target, Padded(msg, len))
  {
    hide ChatSession.Valid, Zeroed;
    forall s | s in sessions && s != target
      ensures forall m <- s.nodes :: m !in target.nodes
    {
      QueuesDisjoint(s, target);
    }
    var ok := target.Push(msg, len);
    forall s | s in sessions
      ensures s.Valid()
    {
      if s != target {
        forall m | m in old(s.nodes)
          ensures m.next == old(m.next)
        {
          assert m !in old(target.nodes);
        }
        Untouched(s);
      }
    }
  }

  // ---- The room ----

  class Participant {
    const session: ChatSession
    var next: Participant?

    constructor (session: ChatSession)
      ensures this.session == session && next == null
    {
      this.session := session;
      next := null;
    }
  }

  /** The participant behind position `i` of a list. */
  ghost function Behind(spine: seq<Participant>, i: nat): Participant? {
    if i + 1 < |spine| then spine[i + 1] else null
  }

  /** `spine` is the list that starts at `participants`, `members` the sessions on it. */
  class ChatRoom {
    var participants: Participant?
    ghost var spine: seq<Participant>
    ghost var members: seq<ChatSession>

    ghost predicate Valid()
      reads this, spine
    {
      && participants == (if spine == [] then null else spine[0])
      && |members| == |spine|
      && (forall i, j :: 0 <= i < j < |spine| ==> spine[i] != spine[j])
      && (forall i {:trigger Behind(spine, i)} :: 0 <= i < |spine| ==> spine[i].next == Behind(spine, i))
      && (forall i :: 0 <= i < |spine| ==> spine[i].session == members[i])
    }

    /** The room as `ChatHistory` sees it; `taken` are the texts popped so far. */
    ghost function View(sessions: set<ChatSession>, taken: map<ChatSession, seq<Bytes>>): Room<ChatSession>
      reads this, sessions
    {
      Room(members, QueuesOf(sessions), taken)
    }

    constructor ()
      ensures Valid() && members == [] && spine == []
    {
      participants := null;
      spine, members := [], [];
    }

    /** One turn of the loop in `sendto_room`, at participant `k`. */
    method SendTurn(session: ChatSession?, msg: Bytes, len: nat, current: Participant,
                    ghost k: nat, ghost sessions: set<ChatSession>, ghost before: map<ChatSession, seq<Bytes>>)
      returns (next: Participant?)
      requires Valid() && AllValid(sessions) && k < |spine| && current == spine[k]
      requires members[k] in sessions && before.Keys == sessions
      requires len <= PACKET_SIZE && (len <= |msg| || 0 in msg)
      requires QueuesOf(sessions) == Broadcast(before, members[..k], Muted(session), Padded(msg, len))
      modifies sessions, NodesOf(sessions)
      ensures AllValid(sessions) && next == Behind(spine, k)
      ensures forall m <- NodesOf(sessions) :: m in old(NodesOf(sessions)) || fresh(m)
      ensures forall b <- BlocksOf(sessions) :: b in old(BlocksOf(sessions)) || fresh(b)
      ensures QueuesOf(sessions) == Broadcast(before, members[..k + 1], Muted(session), Padded(msg, len))
    {
      hide AllValid, Broadcast, Zeroed;
      BroadcastNext(before, members, k, Muted(session), Padded(msg, len));
      if current.session != session {
        SendOne(current.session, msg, len, sessions);
      }
      next := current.next;
    }

    /** `sendto_room`. */
    method SendToRoom(session: ChatSession?, msg: Bytes, len: nat, ghost sessions: set<ChatSession>,
                      ghost taken: map<ChatSession, seq<Bytes>>)
      requires Valid() && AllValid(sessions) && (forall s <- members :: s in sessions)
      requires len <= PACKET_SIZE && (len <= |msg| || 0 in msg)
      modifies sessions, NodesOf(sessions)
      ensures AllValid(sessions)
      ensures forall m <- NodesOf(sessions) :: m in old(NodesOf(sessions)) || fresh(m)
      ensures forall b <- BlocksOf(sessions) :: b in old(BlocksOf(sessions)) || fresh(b)
      ensures QueuesOf(sessions) == Broadcast(old(QueuesOf(sessions)), members, Muted(session), Padded(msg, len))
      ensures session != null ==>
        View(sessions, taken) == Happen(old(View(sessions, taken)), Say(session, Padded(msg, len)))
    {
      hide AllValid, Broadcast, Zeroed, NodesOf, BlocksOf, QueuesOf;
      var current := participants;
      ghost var k, before := 0, QueuesOf(sessions);
      assert members[..0] == [];
      BroadcastNobody(before, Muted(session), Padded(msg, len));
      while current != null
        invariant 0 <= k <= |spine| && current == if k < |spine| then spine[k] else null
        invariant forall m <- NodesOf(sessions) :: m in old(NodesOf(sessions)) || fresh(m)
        invariant forall b <- BlocksOf(sessions) :: b in old(BlocksOf(sessions)) || fresh(b)
        invariant AllValid(sessions)
        invariant QueuesOf(sessions) == Broadcast(before, members[..k], Muted(session), Padded(msg, len))
        decreases |spine| - k
      {
        assert members[k] in members;
        current := SendTurn(session, msg, len, current, k, sessions, before);
        k := k + 1;
      }
      assert members[..k] == members;
    }

    /** The end of the participant list. */
    method FindLast() returns (current: Participant)
      requires Valid() && participants != null
      ensures spine != [] && current == spine[|spine| - 1]
    {
      current := participants;
      ghost var k := 0;
      while current.next != null
        invariant 0 <= k < |spine| && current == spine[k]
        decreases |spine| - k
      {
        assert spine[k].next == Behind(spine, k);
        current := current.next;
        k := k + 1;
      }
      assert spine[k].next == Behind(spine, k);
    }

    /** The first half of `join`: a new participant behind the last one. */
    method Enter(newPar: Participant)
      requires Valid() && newPar !in spine && newPar.next == null
      modifies this, spine
      ensures Valid() && members == old(members) + [newPar.session] && spine == old(spine) + [newPar]
    {
      if participants == null {
        participants := newPar;
      } else {
        var current := FindLast();
        current.next := newPar;
      }
      ghost var was := spine;
      spine, members := spine + [newPar], members + [newPar.session];
      assert forall i :: 0 <= i < |was| - 1 ==> Behind(spine, i) == Behind(was, i);
    }

    /** `join`. */
    method Join(session: ChatSession?, ghost sessions: set<ChatSession>, ghost taken: map<ChatSession, seq<Bytes>>)
      returns (ok: int)
      requires Valid() && AllValid(sessions) && (forall s <- members :: s in sessions)
      requires session != null ==> session in sessions
      modifies this, spine, sessions, NodesOf(sessions)
      ensures Valid() && AllValid(sessions) && (forall s <- members :: s in sessions)
      ensures forall q <- spine :: q in old(spine) || fresh(q)
      ensures forall m <- NodesOf(sessions) :: m in old(NodesOf(sessions)) || fresh(m)
      ensures forall b <- BlocksOf(sessions) :: b in old(BlocksOf(sessions)) || fresh(b)
      ensures ok == (if session == null then 0 else 1)
      ensures View(sessions, taken) ==
        if session == null then old(View(sessions, taken))
        else Happen(old(View(sessions, taken)), ChatHistory.Join(session))
      ensures session != null ==> members == old(members) + [session] && session.queue == old(session.queue)
    {
      hide AllValid, Broadcast, Zeroed;
      if session == null {
        return 0;
      }
      var newPar := new Participant(session);
      Enter(newPar);
      AllUntouched(sessions);
      SendToRoom(session, JOIN_MESSAGE, |JOIN_MESSAGE|, sessions, taken);
      assert Padded(JOIN_MESSAGE, |JOIN_MESSAGE|) == JOIN_MESSAGE;
      SilentFor(old(QueuesOf(sessions)), members, Muted(session), JOIN_MESSAGE, session);
      return 1;
    }

    /** The loop of `leave`: the participant before the first one of `session`, which is
        not at the head. */
    method FindBefore(session: ChatSession) returns (current: Participant, ghost k: nat)
      requires Valid() && session in members && members[0] != session
      ensures 0 < k < |spine| && current == spine[k - 1] && members[k] == session
      ensures forall i :: 0 <= i < k ==> members[i] != session
    {
      current, k := participants, 1;
      assert spine[0].next == Behind(spine, 0);
      while current.next != null
        invariant 0 < k <= |spine| && current == spine[k - 1] && current.next == Behind(spine, k - 1)
        invariant forall i :: 0 <= i < k ==> members[i] != session
        decreases |spine| - k
      {
        assert current.next == spine[k] && spine[k].session == members[k];
        if current.next.session == session {
          return;
        }
        current := current.next;
        assert spine[k].next == Behind(spine, k);
        k := k + 1;
      }
    }

    /** The branch of `leave` for the head of the list. */
    method UnlinkHead()
      requires Valid() && spine != []
      modifies this
      ensures Valid() && spine == Without(old(spine), 0) && members == Without(old(members), 0)
    {
      hide Without;
      assert spine[0].next == Behind(spine, 0);
      participants := participants.next;
      ghost var was := spine;
      spine, members := Without(spine, 0), Without(members, 0);
      assert forall i :: 0 <= i < |spine| ==> Behind(spine, i) == Behind(was, i + 1);
    }

    /** The other branch: `current` is the participant before the one that leaves. */
    method UnlinkAfter(current: Participant, ghost k: nat)
      requires Valid() && 0 < k < |spine| && current == spine[k - 1]
      modifies this, current
      ensures Valid() && spine == Without(old(spine), k) && members == Without(old(members), k)
    {
      hide Without;
      assert spine[k - 1].next == Behind(spine, k - 1) && spine[k].next == Behind(spine, k);
      current.next := current.next.next;
      ghost var was := spine;
      spine, members := Without(spine, k), Without(members, k);
      assert forall i :: 0 <= i < |spine| && i != k - 1 ==> Behind(spine, i) == Behind(was, if i < k then i else i + 1);
    }

    /** The first half of `leave`: unlinks one participant. */
    method Unlink(session: ChatSession) returns (ghost k: nat)
      requires Valid() && session in members
      modifies this, spine
      ensures Valid() && members == RemoveFirst(old(members), session)
      ensures k < |old(spine)| && spine == Without(old(spine), k)
    {
      hide Without, RemoveFirst;
      if participants.session == session {
        k := 0;
        RemoveFirstAt(members, session, 0);
        UnlinkHead();
      } else {
        var current;
        current, k := FindBefore(session);
        RemoveFirstAt(members, session, k);
        UnlinkAfter(current, k);
      }
    }

    /** `leave`. */
    method Leave(session: ChatSession?, ghost sessions: set<ChatSession>, ghost taken: map<ChatSession, seq<Bytes>>)
      returns (ok: int)
      requires Valid() && AllValid(sessions) && (forall s <- members :: s in sessions)
      requires session != null ==> session in members
      modifies this, spine, sessions, NodesOf(sessions)
      ensures Valid() && AllValid(sessions) && (forall s <- members :: s in sessions)
      ensures forall q <- spine :: q in old(spine) || fresh(q)
      ensures forall m <- NodesOf(sessions) :: m in old(NodesOf(sessions)) || fresh(m)
      ensures forall b <- BlocksOf(sessions) :: b in old(BlocksOf(sessions)) || fresh(b)
      ensures ok == (if session == null then 0 else 1)
      ensures View(sessions, taken) ==
        if session == null then old(View(sessions, taken))
        else Happen(old(View(sessions, taken)), ChatHistory.Leave(session))
      ensures session != null && session !in members ==> session.queue == old(session.queue)
    {
      hide AllValid, Broadcast, Zeroed, RemoveFirst;
      if session == null {
        return 0;
      }
      ghost var k := Unlink(session);
      AllUntouched(sessions);
      SendToRoom(null, LEFT_MESSAGE, |LEFT_MESSAGE|, sessions, taken);
      assert Padded(LEFT_MESSAGE, |LEFT_MESSAGE|) == LEFT_MESSAGE;
      if session !in members {
        SilentFor(old(QueuesOf(sessions)), members, {}, LEFT_MESSAGE, session);
      }
      return 1;
    }

    /** `pop` on one of the queues; the text it hands out is noted in `after`. */
    method TakeFrom(target: ChatSession, dst: array<Byte>, ghost sessions: set<ChatSession>,
                    ghost taken: map<ChatSession, seq<Bytes>>)
      returns (length: nat, ghost after: map<ChatSession, seq<Bytes>>)
      requires AllValid(sessions) && target in sessions && target in taken
      requires (target.queue != [] ==> |target.queue[0]| <= dst.Length) && dst !in BlocksOf(sessions)
      modifies target, dst
      ensures AllValid(sessions) && length <= dst.Length
      ensures forall m <- NodesOf(sessions) :: m in old(NodesOf(sessions))
      ensures BlocksOf(sessions) == old(BlocksOf(sessions))
      ensures View(sessions, after) == Happen(old(View(sessions, taken)), Take(target))
      ensures after == if length == 0 then taken else taken[target := taken[target] + [dst[..length]]]
    {
      hide ChatSession.Valid, Zeroed;
      length := target.Pop(dst);
      after := if length == 0 then taken else taken[target := taken[target] + [dst[..length]]];
      forall s | s in sessions
        ensures s.Valid()
      {
        if s != target {
          Untouched(s);
        }
      }
      SameQueues(QueuesOf(sessions), Happen(old(View(sessions, taken)), Take(target)).queues);
    }
  }
}
