/** What the members of a chat room hear, without lists in the heap. */
module ChatHistory {
  import opened Text

  const PACKET_SIZE := 1024

  /** "Someone joined" and "Someone left". */
  const JOIN_MESSAGE: Bytes := [83, 111, 109, 101, 111, 110, 101, 32, 106, 111, 105, 110, 101, 100]
  const LEFT_MESSAGE: Bytes := [83, 111, 109, 101, 111, 110, 101, 32, 108, 101, 102, 116]

  lemma Messages()
    ensures |JOIN_MESSAGE| == |"Someone joined"| && |LEFT_MESSAGE| == |"Someone left"|
    ensures forall i :: 0 <= i < |JOIN_MESSAGE| ==> JOIN_MESSAGE[i] as int == "Someone joined"[i] as int
    ensures forall i :: 0 <= i < |LEFT_MESSAGE| ==> LEFT_MESSAGE[i] as int == "Someone left"[i] as int
  {
  }

  datatype Event<T> = Join(who: T) | Leave(who: T) | Say(from: T, text: Bytes) | Take(who: T)

  /** The participants in order, the texts queued for each session, and those it took. */
  datatype Room<!T> = Room(members: seq<T>, queues: map<T, seq<Bytes>>, taken: map<T, seq<Bytes>>)

  function Copies(text: Bytes, n: nat): seq<Bytes> {
    seq(n, _ => Zeroed(text))
  }

  /** What `sendto_room` queues for `s`: one copy for each time it is in the room, none
      for the sender and none of an empty text. */
  function Heard<T(==)>(members: seq<T>, s: T, muted: bool, text: Bytes): seq<Bytes> {
    if muted || text == [] then [] else Copies(text, multiset(members)[s])
  }

  /** `members` without the first `who`. */
  function RemoveFirst<T(==)>(members: seq<T>, who: T): (r: seq<T>)
    ensures multiset(r) == multiset(members) - multiset{who}
  {
    if members == [] then []
    else if members[0] == who then
      assert members == [who] + members[1..];
      members[1..]
    else
      assert members == [members[0]] + members[1..];
      [members[0]] + RemoveFirst(members[1..], who)
  }

  /** `s` without the element at `k`. */
  function Without<T>(s: seq<T>, k: nat): (r: seq<T>)
    requires k < |s|
    ensures |r| == |s| - 1 && forall i :: 0 <= i < |r| ==> r[i] == s[if i < k then i else i + 1]
  {
    s[..k] + s[k + 1..]
  }

  /** Where `leave` stops looking is the participant that it removes. */
  lemma {:induction false} RemoveFirstAt<T>(members: seq<T>, who: T, k: nat)
    requires k < |members| && members[k] == who
    requires forall i :: 0 <= i < k ==> members[i] != who
    ensures RemoveFirst(members, who) == Without(members, k)
  {
    if k > 0 {
      RemoveFirstAt(members[1..], who, k - 1);
      assert [members[0]] + Without(members[1..], k - 1) == Without(members, k);
    }
  }

  function Broadcast<T(==)>(queues: map<T, seq<Bytes>>, members: seq<T>, muted: set<T>, text: Bytes)
    : map<T, seq<Bytes>>
  {
    map s | s in queues :: queues[s] + Heard(members, s, s in muted, text)
  }

  function Happen<T(==)>(r: Room<T>, e: Event<T>): Room<T> {
    match e
    case Join(who) =>
      var members := r.members + [who];
      r.(members := members, queues := Broadcast(r.queues, members, {who}, JOIN_MESSAGE))
    case Leave(who) =>
      var members := RemoveFirst(r.members, who);
      r.(members := members, queues := Broadcast(r.queues, members, {}, LEFT_MESSAGE))
    case Say(from, text) =>
      r.(queues := Broadcast(r.queues, r.members, {from}, text))
    case Take(who) =>
      if who in r.queues && who in r.taken && r.queues[who] != [] then
        r.(queues := r.queues[who := r.queues[who][1..]],
           taken := r.taken[who := r.taken[who] + [r.queues[who][0]]])
      else r
  }

  function HappenAll<T(==)>(r: Room<T>, events: seq<Event<T>>): Room<T> {
    if events == [] then r else Happen(HappenAll(r, events[..|events| - 1]), events[|events| - 1])
  }

  /** What the callers of the chat room see to: who leaves is in the room, and texts fit
      the buffers. */
  predicate Allowed<T(==)>(r: Room<T>, e: Event<T>) {
    match e
    case Join(who) => who in r.queues
    case Leave(who) => who in r.members
    case Say(from, text) => from in r.queues && |text| <= PACKET_SIZE
    case Take(who) => who in r.queues && who in r.taken
  }

  predicate Legal<T(==)>(r: Room<T>, events: seq<Event<T>>) {
    forall i :: 0 <= i < |events| ==> Allowed(HappenAll(r, events[..i]), events[i])
  }

  /** What a session that is `n` times in the room hears of an event of somebody else. */
  function Echo<T(==)>(e: Event<T>, s: T, n: nat): seq<Bytes> {
    match e
    case Join(_) => Copies(JOIN_MESSAGE, n)
    case Leave(_) => Copies(LEFT_MESSAGE, n)
    case Say(from, text) => if from == s || text == [] then [] else Copies(text, n)
    case Take(_) => []
  }

  function Echoes<T(==)>(events: seq<Event<T>>, s: T, n: nat): seq<Bytes> {
    if events == [] then []
    else Echoes(events[..|events| - 1], s, n) + Echo(events[|events| - 1], s, n)
  }

  predicate OwnMove<T(==)>(e: Event<T>, s: T) {
    (e.Join? || e.Leave?) && e.who == s
  }

  /** Everything that was queued for `s` so far, whether it is still queued or not. */
  function Received<T>(r: Room<T>, s: T): seq<Bytes>
    requires s in r.queues && s in r.taken
  {
    r.taken[s] + r.queues[s]
  }

  lemma BroadcastTo<T>(queues: map<T, seq<Bytes>>, members: seq<T>, muted: set<T>, text: Bytes, s: T)
    requires s in queues
    ensures var q := Broadcast(queues, members, muted, text);
      s in q && q[s] == queues[s] + Heard(members, s, s in muted, text)
  {
  }

  lemma ReceivedMore<T>(r: Room<T>, r': Room<T>, s: T, more: seq<Bytes>)
    requires s in r.queues && s in r.taken && s in r'.queues && s in r'.taken
    requires r'.taken[s] == r.taken[s] && r'.queues[s] == r.queues[s] + more
    ensures Received(r', s) == Received(r, s) + more
  {
  }

  lemma TakeKeepsReceived<T>(r: Room<T>, who: T, s: T)
    requires s in r.queues && s in r.taken
    ensures var r' := Happen(r, Take(who));
      s in r'.queues && s in r'.taken && Received(r', s) == Received(r, s)
  {
    if who == s && r.queues[s] != [] {
      assert r.queues[s] == [r.queues[s][0]] + r.queues[s][1..];
    }
  }

  lemma OneEvent<T>(r: Room<T>, e: Event<T>, s: T)
    requires s in r.queues && s in r.taken && !OwnMove(e, s)
    ensures var r' := Happen(r, e);
      && s in r'.queues && s in r'.taken
      && multiset(r'.members)[s] == multiset(r.members)[s]
      && Received(r', s) == Received(r, s) + Echo(e, s, multiset(r.members)[s])
  {
    hide Broadcast, Received, Zeroed, RemoveFirst;
    var r' := Happen(r, e);
    match e
    case Join(who) =>
      BroadcastTo(r.queues, r'.members, {who}, JOIN_MESSAGE, s);
      ReceivedMore(r, r', s, Heard(r'.members, s, false, JOIN_MESSAGE));
    case Leave(who) =>
      BroadcastTo(r.queues, r'.members, {}, LEFT_MESSAGE, s);
      ReceivedMore(r, r', s, Heard(r'.members, s, false, LEFT_MESSAGE));
    case Say(from, text) =>
      BroadcastTo(r.queues, r.members, {from}, text, s);
      ReceivedMore(r, r', s, Heard(r.members, s, from == s, text));
    case Take(who) => TakeKeepsReceived(r, who, s);
  }

  /** While a session stays in the room, what it took followed by what is queued for it
      grows by every room event but its own, in order, and by nothing else. */
  lemma {:induction false} History<T>(r: Room<T>, events: seq<Event<T>>, s: T)
    requires s in r.queues && s in r.taken
    requires forall i :: 0 <= i < |events| ==> !OwnMove(events[i], s)
    ensures var r' := HappenAll(r, events);
      && s in r'.queues && s in r'.taken
      && multiset(r'.members)[s] == multiset(r.members)[s]
      && Received(r', s) == Received(r, s) + Echoes(events, s, multiset(r.members)[s])
  {
    if events != [] {
      var front, last := events[..|events| - 1], events[|events| - 1];
      History(r, front, s);
      OneEvent(HappenAll(r, front), last, s);
    }
  }

  lemma JoinIsSilent<T>(r: Room<T>, s: T)
    requires s in r.queues && s in r.taken && s !in r.members
    ensures var joined := Happen(r, Join(s));
      && s in joined.queues && s in joined.taken
      && Received(joined, s) == Received(r, s)
      && multiset(joined.members)[s] == 1
  {
    BroadcastTo(r.queues, r.members + [s], {s}, JOIN_MESSAGE, s);
  }

  /** A session that joins a room it is not in receives, from then on and until it joins
      again or leaves, each room event of the others once, in order. */
  lemma HistorySinceJoin<T>(r: Room<T>, events: seq<Event<T>>, s: T)
    requires s in r.queues && s in r.taken && s !in r.members
    requires forall i :: 0 <= i < |events| ==> !OwnMove(events[i], s)
    ensures var r' := HappenAll(Happen(r, Join(s)), events);
      && s in r'.queues && s in r'.taken
      && Received(r', s) == Received(r, s) + Echoes(events, s, 1)
  {
    JoinIsSilent(r, s);
    History(Happen(r, Join(s)), events, s);
  }

  // ---- Every session, in or out of the room ----

  /** How often a session is in the room after an event. */
  function CountAfter<T(==)>(e: Event<T>, s: T, n: nat): nat {
    match e
    case Join(who) => if who == s then n + 1 else n
    case Leave(who) => if who == s && n > 0 then n - 1 else n
    case _ => n
  }

  /** What it hears of an event: nothing of its own join, and of its own leave only where it
      is in the room a second time. */
  function Hears<T(==)>(e: Event<T>, s: T, n: nat): seq<Bytes> {
    match e
    case Join(who) => if who == s then [] else Copies(JOIN_MESSAGE, n)
    case Leave(_) => Copies(LEFT_MESSAGE, CountAfter(e, s, n))
    case Say(from, text) => if from == s || text == [] then [] else Copies(text, n)
    case Take(_) => []
  }

  function CountAfterAll<T(==)>(events: seq<Event<T>>, s: T, n: nat): nat {
    if events == [] then n
    else CountAfter(events[|events| - 1], s, CountAfterAll(events[..|events| - 1], s, n))
  }

  function HearsAll<T(==)>(events: seq<Event<T>>, s: T, n: nat): seq<Bytes> {
    if events == [] then []
    else
      var front, last := events[..|events| - 1], events[|events| - 1];
      HearsAll(front, s, n) + Hears(last, s, CountAfterAll(front, s, n))
  }

  /** Who leaves for good hears nothing of it. */
  lemma LeaveIsSilent<T>(r: Room<T>, s: T)
    requires s in r.queues && s in r.taken && multiset(r.members)[s] == 1
    ensures var left := Happen(r, Leave(s));
      && s in left.queues && s in left.taken && s !in left.members
      && left.queues[s] == r.queues[s] && left.taken[s] == r.taken[s]
  {
    AnyEvent(r, Leave(s), s);
    var members := RemoveFirst(r.members, s);
    assert multiset(members)[s] == 0;
    BroadcastTo(r.queues, members, {}, LEFT_MESSAGE, s);
  }

  lemma AnyEvent<T>(r: Room<T>, e: Event<T>, s: T)
    requires s in r.queues && s in r.taken
    ensures var r', n := Happen(r, e), multiset(r.members)[s];
      && s in r'.queues && s in r'.taken
      && multiset(r'.members)[s] == CountAfter(e, s, n)
      && Received(r', s) == Received(r, s) + Hears(e, s, n)
  {
    hide Broadcast, Received, Zeroed, RemoveFirst;
    if OwnMove(e, s) {
      var r' := Happen(r, e);
      var text := if e.Join? then JOIN_MESSAGE else LEFT_MESSAGE;
      var muted := if e.Join? then {s} else {};
      BroadcastTo(r.queues, r'.members, muted, text, s);
      ReceivedMore(r, r', s, Heard(r'.members, s, s in muted, text));
    } else {
      OneEvent(r, e, s);
    }
  }

  /** The whole history: for any sequence of events, also its own joins and leaves, what a
      session took followed by what is queued for it grows by what it hears of each. */
  lemma {:induction false} FullHistory<T>(r: Room<T>, events: seq<Event<T>>, s: T)
    requires s in r.queues && s in r.taken
    ensures var r', n := HappenAll(r, events), multiset(r.members)[s];
      && s in r'.queues && s in r'.taken
      && multiset(r'.members)[s] == CountAfterAll(events, s, n)
      && Received(r', s) == Received(r, s) + HearsAll(events, s, n)
  {
    if events != [] {
      var front, last := events[..|events| - 1], events[|events| - 1];
      FullHistory(r, front, s);
      AnyEvent(HappenAll(r, front), last, s);
    }
  }
}
