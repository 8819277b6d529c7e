/** The in-process event broadcaster: a lock-protected map from names to subscriber channels, each
    with room for eight events. */
module Broadcaster {
  const CAPACITY: nat := 8

  datatype Message = Message(event: string, data: nat)

  /** A non-blocking send: skipped when the buffer is full. */
  function Offered(buf: seq<Message>, m: Message): seq<Message> {
    if |buf| < CAPACITY then buf + [m] else buf
  }

  // ------------------------------------------------------------------------------------------
  // The three methods, each run on its own.

  class Channel {
    var buf: seq<Message>
    var closed: bool

    constructor ()
      ensures buf == [] && !closed
    {
      buf, closed := [], false;
    }
  }

  class Hub {
    var subs: map<string, set<Channel>>

    /** No name is kept without subscribers; a channel is open while it is listed, listed under
        one name only, and never holds more than its capacity. */
    ghost predicate Valid()
      reads this, set name, c | name in subs && c in subs[name] :: c
    {
      && (forall name :: name in subs ==> subs[name] != {})
      && (forall name, c :: name in subs && c in subs[name] ==> !c.closed && |c.buf| <= CAPACITY)
      && (forall n, m, c :: n in subs && m in subs && c in subs[n] && c in subs[m] ==> n == m)
    }

    constructor ()
      ensures Valid() && subs == map[]
    {
      subs := map[];
    }

    method Subscribe(name: string) returns (c: Channel)
      requires Valid()
      modifies this
      ensures Valid() && fresh(c) && c.buf == [] && !c.closed
      ensures subs == old(subs)[name := (if name in old(subs) then old(subs)[name] else {}) + {c}]
    {
      c := new Channel();
      if name !in subs { subs := subs[name := {}]; }
      subs := subs[name := subs[name] + {c}];
    }

    /** The channel is closed after the lock is released; by then no name lists it. */
    method Unsubscribe(name: string, c: Channel)
      requires Valid() && name in subs && c in subs[name]
      modifies this, c
      ensures Valid() && c.closed && c.buf == old(c.buf)
      ensures forall n :: n in subs ==> subs[n] != {}
      ensures forall n :: n in subs ==> c !in subs[n]
      ensures forall n :: n in old(subs) && n != name ==> n in subs && subs[n] == old(subs)[n]
      ensures name in subs <==> old(subs)[name] != {c}
      ensures name in subs ==> subs[name] == old(subs)[name] - {c}
    {
      subs := subs[name := subs[name] - {c}];
      if subs[name] == {} { subs := subs - {name}; }
      c.closed := true;
    }

    /** In whatever order the map is walked, every subscriber of the name with room gets the
        message at the end of its buffer and no other channel changes. */
    method Broadcast(name: string, m: Message)
      requires Valid()
      modifies if name in subs then subs[name] else {}
      ensures Valid() && subs == old(subs)
      ensures forall c :: name in subs && c in subs[name] ==> c.buf == if |old(c.buf)| < 8 then old(c.buf) + [m] else old(c.buf)
    {
      if name !in subs { return; }
      var todo := subs[name];
      while todo != {}
        invariant todo <= subs[name] && subs == old(subs)
        invariant forall c :: c in subs[name] ==> c.closed == old(c.closed)
        invariant forall c :: c in subs[name] ==> c.buf == if c in todo then old(c.buf) else Offered(old(c.buf), m)
        invariant forall n, c :: n in subs && n != name && c in subs[n] ==> c.buf == old(c.buf) && c.closed == old(c.closed)
        decreases |todo|
      {
        var c :| c in todo;
        if |c.buf| < CAPACITY { c.buf := c.buf + [m]; }
        todo := todo - {c};
      }
    }
  }

  // ------------------------------------------------------------------------------------------
  // All interleavings. Broadcasts hold the lock shared, so several may be sending at once;
  // subscribing and the first half of unsubscribing hold it alone.

  type ChannelId = nat
  type BroadcastId = nat

  /** One attempt to hand a broadcast to a subscriber, and how full its buffer was. */
  datatype Attempt = Attempt(broadcast: BroadcastId, message: Message, kept: bool, fill: nat)

  /** received: what the subscriber has read so far; log: every attempt to send to it; begun: the
      broadcasts on its name that started while it was subscribed. */
  datatype Subscriber = Subscriber(
    name: string, buf: seq<Message>, closed: bool,
    received: seq<Message>, log: seq<Attempt>, begun: set<BroadcastId>)

  datatype Sending = Sending(name: string, message: Message, remaining: set<ChannelId>)

  datatype State = State(
    subs: map<string, set<ChannelId>>,
    channels: map<ChannelId, Subscriber>,
    leaving: set<ChannelId>,
    sending: map<BroadcastId, Sending>,
    finished: set<BroadcastId>)

  datatype Step =
    | Subscribe(name: string, c: ChannelId)
    | Remove(c: ChannelId)
    | Close(c: ChannelId)
    | Begin(b: BroadcastId, name: string, message: Message)
    | Send(b: BroadcastId, c: ChannelId)
    | End(b: BroadcastId)
    | Receive(c: ChannelId)

  function Listed(s: State, name: string): set<ChannelId> {
    if name in s.subs then s.subs[name] else {}
  }

  /** What the lock, the handler's one Unsubscribe per subscription and the channel allow. */
  predicate Enabled(s: State, step: Step) {
    match step
    case Subscribe(_, c) => s.sending == map[] && c !in s.channels
    case Remove(c) => s.sending == map[] && c in s.channels && c in Listed(s, s.channels[c].name)
    case Close(c) => c in s.leaving
    case Begin(b, _, _) => b !in s.sending && b !in s.finished
    case Send(b, c) => b in s.sending && c in s.sending[b].remaining
    case End(b) => b in s.sending && s.sending[b].remaining == {}
    case Receive(c) => c in s.channels && s.channels[c].buf != []
  }

  /** Go panics on a send to, or a second close of, a closed channel. */
  predicate Panics(s: State, step: Step) {
    (step.Send? || step.Close?) && (step.c !in s.channels || s.channels[step.c].closed)
  }

  function Attempted(r: Subscriber, b: BroadcastId, m: Message): Subscriber {
    r.(buf := Offered(r.buf, m), log := r.log + [Attempt(b, m, |r.buf| < CAPACITY, |r.buf|)])
  }

  function After(s: State, step: Step): State
    requires Enabled(s, step) && !Panics(s, step)
  {
    match step
    case Subscribe(name, c) =>
      s.(subs := s.subs[name := Listed(s, name) + {c}],
         channels := s.channels[c := Subscriber(name, [], false, [], [], {})])
    case Remove(c) =>
      var name := s.channels[c].name;
      var rest := Listed(s, name) - {c};
      s.(subs := if rest == {} then s.subs - {name} else s.subs[name := rest], leaving := s.leaving + {c})
    case Close(c) =>
      s.(channels := s.channels[c := s.channels[c].(closed := true)], leaving := s.leaving - {c})
    case Begin(b, name, m) =>
      s.(sending := s.sending[b := Sending(name, m, Listed(s, name))],
         channels := map c | c in s.channels ::
           if c in Listed(s, name) then s.channels[c].(begun := s.channels[c].begun + {b}) else s.channels[c])
    case Send(b, c) =>
      s.(sending := s.sending[b := s.sending[b].(remaining := s.sending[b].remaining - {c})],
         channels := s.channels[c := Attempted(s.channels[c], b, s.sending[b].message)])
    case End(b) => s.(sending := s.sending - {b}, finished := s.finished + {b})
    case Receive(c) =>
      var r := s.channels[c];
      s.(channels := s.channels[c := r.(received := r.received + [r.buf[0]], buf := r.buf[1..])])
  }

  /** The messages of the attempts that found room. */
  function Kept(log: seq<Attempt>): seq<Message> {
    if log == [] then []
    else Kept(log[..|log| - 1]) + if log[|log| - 1].kept then [log[|log| - 1].message] else []
  }

  predicate WasAttempted(log: seq<Attempt>, b: BroadcastId) {
    exists i :: 0 <= i < |log| && log[i].broadcast == b
  }

  /** A subscriber's own books. */
  predicate SubscriberSound(r: Subscriber) {
    && |r.buf| <= CAPACITY
    && r.received + r.buf == Kept(r.log)
    && (forall i :: 0 <= i < |r.log| ==> (r.log[i].kept <==> r.log[i].fill < CAPACITY))
    && (forall i :: 0 <= i < |r.log| ==> r.log[i].broadcast in r.begun)
    && (forall i, j :: 0 <= i < j < |r.log| ==> r.log[i].broadcast != r.log[j].broadcast)
  }

  predicate StillSending(sending: map<BroadcastId, Sending>, b: BroadcastId, c: ChannelId) {
    b in sending && c in sending[b].remaining
  }

  /** No name is kept without subscribers; listed and leaving channels are open. */
  predicate RegistrySound(s: State) {
    && (forall name :: name in s.subs ==> s.subs[name] != {})
    && (forall name, c :: name in s.subs && c in s.subs[name] ==>
          c in s.channels && s.channels[c].name == name && !s.channels[c].closed && c !in s.leaving)
    && (forall c :: c in s.leaving ==> c in s.channels && !s.channels[c].closed)
    && (forall b :: b in s.sending ==> b !in s.finished && s.sending[b].remaining <= Listed(s, s.sending[b].name))
  }

  /** A broadcast begun for this subscriber is under way or finished, and has been tried on it
      exactly when it no longer waits its turn. */
  ghost predicate Accounted(sending: map<BroadcastId, Sending>, finished: set<BroadcastId>, c: ChannelId, r: Subscriber) {
    && (forall b :: b in r.begun ==>
          && (b in sending || b in finished)
          && (StillSending(sending, b, c) <==> !WasAttempted(r.log, b)))
    && (forall b :: StillSending(sending, b, c) ==> b in r.begun)
  }

  ghost predicate Sound(s: State) {
    && RegistrySound(s)
    && (forall c :: c in s.channels ==> SubscriberSound(s.channels[c]))
    && (forall c :: c in s.channels ==> Accounted(s.sending, s.finished, c, s.channels[c]))
  }

  /** No enabled step of a sound state sends on, or closes, a closed channel. */
  lemma NothingPanics(s: State, step: Step)
    requires Sound(s) && Enabled(s, step)
    ensures !Panics(s, step)
  {
    if step.Send? {
      assert step.c in Listed(s, s.sending[step.b].name);
    }
  }

  lemma AttemptedIsSound(r: Subscriber, b: BroadcastId, m: Message)
    requires SubscriberSound(r) && b in r.begun && !WasAttempted(r.log, b)
    ensures SubscriberSound(Attempted(r, b, m))
    ensures forall x :: WasAttempted(Attempted(r, b, m).log, x) <==> WasAttempted(r.log, x) || x == b
  {
    var r' := Attempted(r, b, m);
    var n := |r.log|;
    assert r'.log[..n] == r.log;
    forall x ensures WasAttempted(r'.log, x) <==> WasAttempted(r.log, x) || x == b {
      if WasAttempted(r.log, x) {
        var i :| 0 <= i < n && r.log[i].broadcast == x;
        assert r'.log[i].broadcast == x;
      }
      assert r'.log[n].broadcast == b;
    }
    assert |r.buf| < CAPACITY ==> r'.received + r'.buf == (r.received + r.buf) + [m];
    forall i, j | 0 <= i < j < |r'.log| ensures r'.log[i].broadcast != r'.log[j].broadcast {
      if j == n { assert r.log[i].broadcast != b; }
    }
  }

  lemma LockedRegistryStep(s: State, step: Step)
    requires RegistrySound(s) && Enabled(s, step) && !Panics(s, step) && (step.Subscribe? || step.Remove? || step.Close?)
    ensures RegistrySound(After(s, step))
  {}

  lemma SendRegistryStep(s: State, b: BroadcastId, c: ChannelId)
    requires RegistrySound(s) && Enabled(s, Send(b, c)) && !Panics(s, Send(b, c))
    ensures RegistrySound(After(s, Send(b, c)))
  {
    hide Attempted, Panics;
    AttemptedKeeps(s.channels[c], b, s.sending[b].message);
    var s' := After(s, Send(b, c));
    assert s'.subs == s.subs && s'.leaving == s.leaving && s'.channels.Keys == s.channels.Keys && s'.finished == s.finished;
    assert forall x :: x in s.channels ==> s'.channels[x].name == s.channels[x].name && s'.channels[x].closed == s.channels[x].closed;
    hide After;
  }

  lemma SharedRegistryStep(s: State, step: Step)
    requires RegistrySound(s) && Enabled(s, step) && (step.Begin? || step.End? || step.Receive?)
    ensures RegistrySound(After(s, step))
  {}

  lemma AttemptedKeeps(r: Subscriber, b: BroadcastId, m: Message)
    ensures var r' := Attempted(r, b, m); r'.name == r.name && r'.closed == r.closed && r'.begun == r.begun
  {}

  lemma NewSubscriber(s: State, name: string, c: ChannelId)
    requires s.sending == map[]
    ensures var r := Subscriber(name, [], false, [], [], {}); SubscriberSound(r) && Accounted(s.sending, s.finished, c, r)
  {}

  lemma ClosedSubscriber(s: State, c: ChannelId, r: Subscriber)
    requires SubscriberSound(r) && Accounted(s.sending, s.finished, c, r)
    ensures SubscriberSound(r.(closed := true)) && Accounted(s.sending, s.finished, c, r.(closed := true))
  {}

  lemma ReadSubscriber(s: State, c: ChannelId, r: Subscriber)
    requires SubscriberSound(r) && Accounted(s.sending, s.finished, c, r) && r.buf != []
    ensures var r' := r.(received := r.received + [r.buf[0]], buf := r.buf[1..]);
      SubscriberSound(r') && Accounted(s.sending, s.finished, c, r')
  {
    assert r.received + [r.buf[0]] + r.buf[1..] == r.received + r.buf;
  }

  lemma FinishedBroadcast(s: State, b: BroadcastId, c: ChannelId, r: Subscriber)
    requires Accounted(s.sending, s.finished, c, r) && b in s.sending && s.sending[b].remaining == {}
    ensures Accounted(s.sending - {b}, s.finished + {b}, c, r)
  {
    var sending := s.sending - {b};
    assert forall x :: StillSending(sending, x, c) <==> StillSending(s.sending, x, c);
  }

  lemma BegunBroadcast(s: State, b: BroadcastId, x: Sending, c: ChannelId, r: Subscriber)
    requires SubscriberSound(r) && Accounted(s.sending, s.finished, c, r) && b !in s.sending && b !in s.finished
    ensures var r' := if c in x.remaining then r.(begun := r.begun + {b}) else r;
      SubscriberSound(r') && Accounted(s.sending[b := x], s.finished, c, r')
  {
    assert b !in r.begun;
    assert !WasAttempted(r.log, b);
    var sending := s.sending[b := x];
    assert forall y :: y != b ==> (StillSending(sending, y, c) <==> StillSending(s.sending, y, c));
  }

  /** The sends still to do once b has been tried on `to`. */
  function Tried(sending: map<BroadcastId, Sending>, b: BroadcastId, to: ChannelId): map<BroadcastId, Sending>
    requires b in sending
  {
    sending[b := sending[b].(remaining := sending[b].remaining - {to})]
  }

  lemma TriedStill(sending: map<BroadcastId, Sending>, b: BroadcastId, to: ChannelId, c: ChannelId)
    requires b in sending
    ensures Tried(sending, b, to).Keys == sending.Keys
    ensures forall y :: StillSending(Tried(sending, b, to), y, c) <==> StillSending(sending, y, c) && !(y == b && c == to)
  {}

  lemma TriedElsewhere(sending: map<BroadcastId, Sending>, finished: set<BroadcastId>, b: BroadcastId, to: ChannelId, c: ChannelId, r: Subscriber)
    requires b in sending && c != to && Accounted(sending, finished, c, r)
    ensures Accounted(Tried(sending, b, to), finished, c, r)
  {
    hide StillSending, WasAttempted, Tried;
    TriedStill(sending, b, to, c);
  }

  lemma TriedHere(sending: map<BroadcastId, Sending>, finished: set<BroadcastId>, b: BroadcastId, c: ChannelId, r: Subscriber, m: Message)
    requires StillSending(sending, b, c) && SubscriberSound(r) && Accounted(sending, finished, c, r)
    ensures SubscriberSound(Attempted(r, b, m)) && Accounted(Tried(sending, b, c), finished, c, Attempted(r, b, m))
  {
    hide WasAttempted, Tried, SubscriberSound, Attempted;
    TriedStill(sending, b, c, c);
    AttemptedIsSound(r, b, m);
    AttemptedKeeps(r, b, m);
    hide StillSending;
  }

  lemma StepKeepsSound(s: State, step: Step)
    requires Sound(s) && Enabled(s, step)
    ensures !Panics(s, step) && Sound(After(s, step))
  {
    NothingPanics(s, step);
    if step.Subscribe? || step.Remove? || step.Close? {
      LockedRegistryStep(s, step);
    } else if step.Send? {
      SendRegistryStep(s, step.b, step.c);
    } else {
      SharedRegistryStep(s, step);
    }
    hide RegistrySound, SubscriberSound, Accounted, Attempted;
    var s' := After(s, step);
    forall c | c in s'.channels
      ensures SubscriberSound(s'.channels[c]) && Accounted(s'.sending, s'.finished, c, s'.channels[c])
    {
      match step
      case Subscribe(name, _) => if c == step.c { NewSubscriber(s, name, c); }
      case Remove(_) =>
      case Close(_) => if c == step.c { ClosedSubscriber(s, c, s.channels[c]); }
      case Begin(b, name, m) => BegunBroadcast(s, b, Sending(name, m, Listed(s, name)), c, s.channels[c]);
      case Send(b, to) =>
        if c == to { TriedHere(s.sending, s.finished, b, c, s.channels[c], s.sending[b].message); }
        else { TriedElsewhere(s.sending, s.finished, b, to, c, s.channels[c]); }
      case End(b) => FinishedBroadcast(s, b, c, s.channels[c]);
      case Receive(_) => if c == step.c { ReadSubscriber(s, c, s.channels[c]); }
    }
  }

  const START := State(map[], map[], {}, map[], {})

  ghost predicate IsRun(states: seq<State>, steps: seq<Step>) {
    && |states| == |steps| + 1
    && states[0] == START
    && forall i :: 0 <= i < |steps| ==>
         Enabled(states[i], steps[i]) && (!Panics(states[i], steps[i]) ==> states[i + 1] == After(states[i], steps[i]))
  }

  /** In every interleaving no step panics and the books of every subscriber are right. */
  lemma {:induction false} EveryStateIsSound(states: seq<State>, steps: seq<Step>, n: nat)
    requires IsRun(states, steps) && n < |states|
    ensures Sound(states[n]) && (n < |steps| ==> !Panics(states[n], steps[n]))
    ensures forall name :: name in states[n].subs ==> states[n].subs[name] != {}
    ensures forall c :: c in states[n].channels ==> |states[n].channels[c].buf| <= 8
  {
    if n > 0 {
      EveryStateIsSound(states, steps, n - 1);
      StepKeepsSound(states[n - 1], steps[n - 1]);
    }
    if n < |steps| { NothingPanics(states[n], steps[n]); }
  }

  /** m is what is left of l after dropping some of its elements. */
  predicate IsSubsequence(m: seq<Message>, l: seq<Message>) {
    if m == [] then true
    else if l == [] then false
    else if m[|m| - 1] == l[|l| - 1] && IsSubsequence(m[..|m| - 1], l[..|l| - 1]) then true
    else IsSubsequence(m, l[..|l| - 1])
  }

  /** Its elements can be found in l, in order. */
  lemma {:induction false} SubsequenceEmbeds(m: seq<Message>, l: seq<Message>) returns (at: seq<nat>)
    requires IsSubsequence(m, l)
    ensures |at| == |m|
    ensures forall i :: 0 <= i < |m| ==> at[i] < |l| && l[at[i]] == m[i]
    ensures forall i, j :: 0 <= i < j < |m| ==> at[i] < at[j]
    decreases |l|
  {
    if m == [] {
      at := [];
    } else {
      var n := |l| - 1;
      if m[|m| - 1] == l[n] && IsSubsequence(m[..|m| - 1], l[..n]) {
        at := SubsequenceEmbeds(m[..|m| - 1], l[..n]);
        at := at + [n];
      } else {
        at := SubsequenceEmbeds(m, l[..n]);
      }
    }
  }

  function Sent(log: seq<Attempt>): (l: seq<Message>)
    ensures |l| == |log| && forall i :: 0 <= i < |log| ==> l[i] == log[i].message
  {
    seq(|log|, i requires 0 <= i < |log| => log[i].message)
  }

  lemma {:induction false} KeptIsSubsequence(log: seq<Attempt>)
    ensures IsSubsequence(Kept(log), Sent(log))
  {
    if log != [] {
      var n := |log| - 1;
      KeptIsSubsequence(log[..n]);
      assert Sent(log)[..n] == Sent(log[..n]);
      if log[n].kept { assert Kept(log)[..|Kept(log)| - 1] == Kept(log[..n]); }
      else { assert Kept(log) == Kept(log[..n]); }
    }
  }
}
