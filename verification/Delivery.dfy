/** Which messages a subscriber gets: every attempt recorded for it is traced back to the steps of
    the run, and a broadcast run in one piece does what Hub.Broadcast does. */
module Delivery {
  import opened Broadcaster

  /** By the steps before n, c has been subscribed to `name` and not removed since. */
  ghost predicate Subscribed(steps: seq<Step>, n: nat, name: string, c: ChannelId)
    requires n <= |steps|
  {
    exists j :: 0 <= j < n && steps[j] == Subscribe(name, c) && forall i :: j < i < n ==> steps[i] != Remove(c)
  }

  /** Step k starts broadcast b of m on `name` while c is subscribed to it. */
  ghost predicate BeganOn(steps: seq<Step>, k: nat, b: BroadcastId, name: string, m: Message, c: ChannelId) {
    k < |steps| && steps[k] == Begin(b, name, m) && Subscribed(steps, k, name, c)
  }

  /** Step t tries a's broadcast on c, whose buffer is then as full as a says. */
  predicate SentAt(states: seq<State>, steps: seq<Step>, t: nat, a: Attempt, c: ChannelId) {
    && t < |steps| && t < |states| && steps[t] == Send(a.broadcast, c)
    && c in states[t].channels && a.fill == |states[t].channels[c].buf| && (a.kept <==> a.fill < CAPACITY)
  }

  lemma StepAt(states: seq<State>, steps: seq<Step>, n: nat)
    requires IsRun(states, steps) && n < |steps|
    ensures Sound(states[n]) && Enabled(states[n], steps[n]) && !Panics(states[n], steps[n])
    ensures states[n + 1] == After(states[n], steps[n])
  {
    hide Sound, Enabled, Panics, After;
    EveryStateIsSound(states, steps, n);
  }

  /** How a step changes who is listed. */
  lemma ListedGrows(s: State, step: Step, name: string, c: ChannelId)
    requires Sound(s) && Enabled(s, step) && !Panics(s, step)
    ensures c in Listed(After(s, step), name) <==> (c in Listed(s, name) && step != Remove(c)) || step == Subscribe(name, c)
  {
    if c in Listed(s, name) { assert s.channels[c].name == name; }
  }

  lemma SubscribedGrows(steps: seq<Step>, n: nat, name: string, c: ChannelId)
    requires 0 < n <= |steps|
    ensures Subscribed(steps, n, name, c) <==>
      (Subscribed(steps, n - 1, name, c) && steps[n - 1] != Remove(c)) || steps[n - 1] == Subscribe(name, c)
  {}

  /** In every run the subscribers of a name are exactly the channels subscribed to it by an earlier
      step and not removed since. */
  lemma {:induction false} ListedIffSubscribed(states: seq<State>, steps: seq<Step>, n: nat, name: string, c: ChannelId)
    requires IsRun(states, steps) && n < |states|
    ensures n <= |steps|
    ensures c in Listed(states[n], name) <==> Subscribed(steps, n, name, c)
    decreases n
  {
    hide Sound, Enabled, Panics, After;
    InitiallyNothing(states, steps);
    if n > 0 {
      ListedIffSubscribed(states, steps, n - 1, name, c);
      StepAt(states, steps, n - 1);
      ListedGrows(states[n - 1], steps[n - 1], name, c);
      SubscribedGrows(steps, n, name, c);
      hide Subscribed;
    }
  }

  /** What is still to be sent was begun by a step of the run, for subscribers of that moment. */
  lemma {:induction false} SendingWasBegun(states: seq<State>, steps: seq<Step>, n: nat, b: BroadcastId) returns (k: nat)
    requires IsRun(states, steps) && n < |states| && b in states[n].sending
    ensures var x := states[n].sending[b];
      k < n && steps[k] == Begin(b, x.name, x.message) && x.remaining <= Listed(states[k], x.name)
  {
    hide IsRun, Sound, Panics;
    InitiallyNothing(states, steps);
    StepAt(states, steps, n - 1);
    if steps[n - 1].Begin? && steps[n - 1].b == b {
      k := n - 1;
    } else {
      k := SendingWasBegun(states, steps, n - 1, b);
    }
  }

  lemma InitiallyNothing(states: seq<State>, steps: seq<Step>)
    requires IsRun(states, steps)
    ensures |states| == |steps| + 1 && states[0].sending == map[] && states[0].channels == map[]
    ensures states[0].subs == map[] && states[0].finished == {}
  {}

  lemma ListedUnderOwnName(s: State, name: string, c: ChannelId)
    requires Sound(s) && c in Listed(s, name)
    ensures c in s.channels && s.channels[c].name == name
  {}

  lemma SendingToOwnName(s: State, b: BroadcastId, c: ChannelId)
    requires Sound(s) && StillSending(s.sending, b, c)
    ensures c in s.channels && s.channels[c].name == s.sending[b].name
  {
    assert s.sending[b].remaining <= Listed(s, s.sending[b].name);
    hide Sound;
    ListedUnderOwnName(s, s.sending[b].name, c) by { assert Sound(s); }
  }

  /** A step keeps a channel's name and its log, but for the one attempt of a Send to it. */
  lemma LogGrows(s: State, step: Step, c: ChannelId)
    requires Enabled(s, step) && !Panics(s, step) && c in After(s, step).channels
    ensures c in s.channels || (step.Subscribe? && step.c == c && After(s, step).channels[c].log == [])
    ensures c in s.channels && !(step.Subscribe? && step.c == c) ==>
      var r, r' := s.channels[c], After(s, step).channels[c];
      && r'.name == r.name
      && (if step.Send? && step.c == c
          then r'.log == r.log + [Attempt(step.b, s.sending[step.b].message, |r.buf| < CAPACITY, |r.buf|)]
          else r'.log == r.log)
  {}

  /** Every attempt in a log is a Send of the run, with the fill of that moment, of a broadcast that
      an earlier step began with that message, on the subscriber's name, while it was subscribed. */
  lemma {:induction false} AttemptIsTraced(states: seq<State>, steps: seq<Step>, n: nat, c: ChannelId, i: nat) returns (k: nat, t: nat)
    requires IsRun(states, steps) && n < |states| && c in states[n].channels && i < |states[n].channels[c].log|
    ensures var r := states[n].channels[c]; var a := r.log[i];
      && k < t < n
      && BeganOn(steps, k, a.broadcast, r.name, a.message, c) && SentAt(states, steps, t, a, c)
    decreases n
  {
    hide IsRun, Sound, Panics, After;
    InitiallyNothing(states, steps);
    StepAt(states, steps, n - 1);
    var s, step := states[n - 1], steps[n - 1];
    LogGrows(s, step, c);
    if i < |s.channels[c].log| {
      k, t := AttemptIsTraced(states, steps, n - 1, c, i);
    } else {
      t := n - 1;
      SendingToOwnName(s, step.b, c);
      k := SendingWasBegun(states, steps, t, step.b);
      ListedIffSubscribed(states, steps, k, s.sending[step.b].name, c);
    }
  }

  /** Some step before n starts b on `name` while c is subscribed to it. */
  ghost predicate BegunBefore(steps: seq<Step>, n: nat, b: BroadcastId, name: string, c: ChannelId) {
    exists k, m :: 0 <= k < n && BeganOn(steps, k, b, name, m, c)
  }

  lemma {:induction false} ChannelsStay(states: seq<State>, steps: seq<Step>, k: nat, n: nat, c: ChannelId)
    requires IsRun(states, steps) && k <= n < |states| && c in states[k].channels
    ensures c in states[n].channels
    decreases n
  {
    hide IsRun, Sound, Panics;
    InitiallyNothing(states, steps);
    if k < n {
      ChannelsStay(states, steps, k, n - 1, c);
      StepAt(states, steps, n - 1);
    }
  }

  /** How a step changes what has begun for a subscriber. */
  lemma BegunGrows(s: State, step: Step, c: ChannelId)
    requires Enabled(s, step) && !Panics(s, step) && c in After(s, step).channels
    ensures c !in s.channels ==> After(s, step).channels[c].begun == {}
    ensures c in s.channels ==> After(s, step).channels[c].name == s.channels[c].name
    ensures c in s.channels ==>
      After(s, step).channels[c].begun == s.channels[c].begun + (if step.Begin? && c in Listed(s, step.name) then {step.b} else {})
  {}

  lemma LastOrBefore(steps: seq<Step>, n: nat, b: BroadcastId, name: string, c: ChannelId)
    requires 0 < n <= |steps|
    ensures BegunBefore(steps, n, b, name, c) <==>
      || BegunBefore(steps, n - 1, b, name, c)
      || (steps[n - 1].Begin? && steps[n - 1].b == b && steps[n - 1].name == name && Subscribed(steps, n - 1, name, c))
  {
    if steps[n - 1].Begin? && BeganOn(steps, n - 1, b, name, steps[n - 1].message, c) {}
  }

  /** What counts as begun for a subscriber is exactly what the run began on its name while it was
      subscribed. */
  lemma {:induction false} BegunIsTraced(states: seq<State>, steps: seq<Step>, n: nat, c: ChannelId, b: BroadcastId)
    requires IsRun(states, steps) && n < |states| && c in states[n].channels
    ensures b in states[n].channels[c].begun <==> BegunBefore(steps, n, b, states[n].channels[c].name, c)
    decreases n
  {
    hide IsRun, Sound, Panics, After, BegunBefore, Enabled;
    InitiallyNothing(states, steps);
    StepAt(states, steps, n - 1);
    var s, step := states[n - 1], steps[n - 1];
    BegunGrows(s, step, c);
    ListedIffSubscribed(states, steps, n - 1, states[n].channels[c].name, c);
    LastOrBefore(steps, n, b, states[n].channels[c].name, c);
    if c in s.channels {
      BegunIsTraced(states, steps, n - 1, c, b);
      if step.Begin? && c in Listed(s, step.name) { ListedUnderOwnName(s, step.name, c); }
    } else {
      NothingBefore(states, steps, n - 1, c, b, states[n].channels[c].name);
      if c in Listed(s, states[n].channels[c].name) { ListedUnderOwnName(s, states[n].channels[c].name, c); }
    }
  }

  lemma NothingBefore(states: seq<State>, steps: seq<Step>, n: nat, c: ChannelId, b: BroadcastId, name: string)
    requires IsRun(states, steps) && n < |states| && c !in states[n].channels
    ensures !BegunBefore(steps, n, b, name, c)
  {
    hide IsRun, Sound;
    InitiallyNothing(states, steps);
    if BegunBefore(steps, n, b, name, c) {
      var k, m :| 0 <= k < n && BeganOn(steps, k, b, name, m, c);
      StepAt(states, steps, k);
      ListedIffSubscribed(states, steps, k, name, c);
      ListedUnderOwnName(states[k], name, c);
      ChannelsStay(states, steps, k, n, c);
    }
  }

  lemma {:induction false} FinishedStays(states: seq<State>, steps: seq<Step>, p: nat, n: nat)
    requires IsRun(states, steps) && p < n < |states| && steps[p].End?
    ensures steps[p].b in states[n].finished && steps[p].b !in states[n].sending
    decreases n
  {
    hide IsRun, Sound, Panics, Enabled, After;
    InitiallyNothing(states, steps);
    StepAt(states, steps, n - 1);
    if p < n - 1 { FinishedStays(states, steps, p, n - 1); }
    StaysFinished(states[n - 1], steps[n - 1], steps[p].b);
  }

  lemma StaysFinished(s: State, step: Step, b: BroadcastId)
    requires Enabled(s, step) && !Panics(s, step)
    requires step == End(b) || (b in s.finished && b !in s.sending)
    ensures b in After(s, step).finished && b !in After(s, step).sending
  {}

  /** Broadcast b had ended before broadcast b' began. */
  ghost predicate EndedBefore(steps: seq<Step>, n: nat, b: BroadcastId, b': BroadcastId) {
    exists p, q :: 0 <= p < q < n && q < |steps| && steps[p] == End(b) && steps[q].Begin? && steps[q].b == b'
  }

  lemma NewIsNotOld(s: State, b: BroadcastId, m: Message, name: string, c: ChannelId, j: nat)
    requires Sound(s) && Enabled(s, Begin(b, name, m)) && c in s.channels && j < |s.channels[c].log|
    ensures s.channels[c].log[j].broadcast != b
  {
    assert Accounted(s.sending, s.finished, c, s.channels[c]);
    assert SubscriberSound(s.channels[c]);
  }

  /** Broadcasts that did not overlap reach every subscriber's log in the order they were made. */
  lemma {:induction false} OrderIsKept(states: seq<State>, steps: seq<Step>, n: nat, c: ChannelId, i: nat, j: nat)
    requires IsRun(states, steps) && n < |states| && c in states[n].channels
    requires i < |states[n].channels[c].log| && j < |states[n].channels[c].log|
    requires EndedBefore(steps, n, states[n].channels[c].log[i].broadcast, states[n].channels[c].log[j].broadcast)
    ensures i < j
    decreases n
  {
    hide IsRun, Sound, Panics, After;
    InitiallyNothing(states, steps);
    StepAt(states, steps, n - 1);
    var s, step := states[n - 1], steps[n - 1];
    LogGrows(s, step, c);
    var b, b' := states[n].channels[c].log[i].broadcast, states[n].channels[c].log[j].broadcast;
    var p, q :| 0 <= p < q < n && q < |steps| && steps[p] == End(b) && steps[q].Begin? && steps[q].b == b';
    FinishedStays(states, steps, p, q);
    if q == n - 1 {
      NewIsNotOld(s, b', step.message, step.name, c, j);
    } else {
      FinishedStays(states, steps, p, n - 1);
      if i < |s.channels[c].log| && j < |s.channels[c].log| {
        assert EndedBefore(steps, n - 1, b, b');
        OrderIsKept(states, steps, n - 1, c, i, j);
      }
    }
  }

  // ------------------------------------------------------------------------------------------

  ghost predicate IsTraced(states: seq<State>, steps: seq<Step>, n: nat, c: ChannelId, name: string, a: Attempt) {
    exists k, t :: 0 <= k < t < n && BeganOn(steps, k, a.broadcast, name, a.message, c) && SentAt(states, steps, t, a, c)
  }

  /** What a subscriber has received or can still receive is a subsequence of the messages
      broadcast on its name while it was subscribed. Each attempt behind it is a step of the run
      that tried such a broadcast on it; each broadcast is tried at most once; a message is missing
      only if the buffer was full at that step; broadcasts that did not overlap come in order; and
      once nothing is being sent, exactly the broadcasts begun on its name while it was subscribed
      have been tried. */
  lemma DeliveryIsFaithful(states: seq<State>, steps: seq<Step>, n: nat, c: ChannelId)
    requires IsRun(states, steps) && n < |states| && c in states[n].channels
    ensures var r := states[n].channels[c];
      && IsSubsequence(r.received + r.buf, Sent(r.log))
      && |r.buf| <= CAPACITY
      && (forall i :: 0 <= i < |r.log| ==> IsTraced(states, steps, n, c, r.name, r.log[i]))
      && (forall i, j :: 0 <= i < j < |r.log| ==> r.log[i].broadcast != r.log[j].broadcast)
      && (forall i, j :: 0 <= i < |r.log| && 0 <= j < |r.log| && EndedBefore(steps, n, r.log[i].broadcast, r.log[j].broadcast) ==> i < j)
      && (states[n].sending == map[] ==>
            forall b :: WasAttempted(r.log, b) <==> BegunBefore(steps, n, b, r.name, c))
  {
    hide IsRun, EndedBefore, BegunBefore, WasAttempted, BeganOn, SentAt;
    InitiallyNothing(states, steps);
    EveryStateIsSound(states, steps, n);
    var r := states[n].channels[c];
    SubscriberFacts(states[n], c);
    KeptIsSubsequence(r.log);
    forall i | 0 <= i < |r.log| ensures IsTraced(states, steps, n, c, r.name, r.log[i]) {
      var k, t := AttemptIsTraced(states, steps, n, c, i);
    }
    forall i, j | 0 <= i < |r.log| && 0 <= j < |r.log| && EndedBefore(steps, n, r.log[i].broadcast, r.log[j].broadcast) ensures i < j {
      OrderIsKept(states, steps, n, c, i, j);
    }
    forall b ensures b in r.begun <==> BegunBefore(steps, n, b, r.name, c) {
      BegunIsTraced(states, steps, n, c, b);
    }
  }

  lemma SubscriberFacts(s: State, c: ChannelId)
    requires Sound(s) && c in s.channels
    ensures var r := s.channels[c];
      && |r.buf| <= CAPACITY && r.received + r.buf == Kept(r.log)
      && (forall i, j :: 0 <= i < j < |r.log| ==> r.log[i].broadcast != r.log[j].broadcast)
      && (s.sending == map[] ==> forall b :: b in r.begun <==> WasAttempted(r.log, b))
  {
    var r := s.channels[c];
    assert SubscriberSound(r) && Accounted(s.sending, s.finished, c, r);
    if s.sending == map[] {
      forall b ensures b in r.begun <==> WasAttempted(r.log, b) {
        if b in r.begun { assert !StillSending(s.sending, b, c); }
      }
    }
  }

  // ------------------------------------------------------------------------------------------
  // The methods of Hub are steps of the machine with nothing in between.

  /** Broadcast b is tried on cs in turn. */
  function SendEach(s: State, b: BroadcastId, cs: seq<ChannelId>): State {
    if cs == [] then s
    else
      var before := SendEach(s, b, cs[..|cs| - 1]);
      var step := Send(b, cs[|cs| - 1]);
      if Enabled(before, step) && !Panics(before, step) then After(before, step) else before
  }

  predicate NoRepeats(cs: seq<ChannelId>) {
    forall i, j :: 0 <= i < j < |cs| ==> cs[i] != cs[j]
  }

  function Elements(cs: seq<ChannelId>): set<ChannelId> {
    set c | c in cs
  }

  /** s' is s but that broadcast b has been tried on each of cs. */
  predicate SentTo(s: State, s': State, b: BroadcastId, cs: seq<ChannelId>)
    requires b in s.sending
  {
    && s'.subs == s.subs && s'.leaving == s.leaving && s'.finished == s.finished && s'.channels.Keys == s.channels.Keys
    && s'.sending == s.sending[b := s.sending[b].(remaining := s.sending[b].remaining - Elements(cs))]
    && forall c :: c in s.channels ==>
         && s'.channels[c].closed == s.channels[c].closed
         && s'.channels[c].buf == if c in cs then Offered(s.channels[c].buf, s.sending[b].message) else s.channels[c].buf
  }

  lemma OneMoreSend(s: State, s': State, b: BroadcastId, cs: seq<ChannelId>, c: ChannelId)
    requires b in s.sending && SentTo(s, s', b, cs) && c !in cs
    requires c in s.sending[b].remaining && c in s.channels && !s.channels[c].closed
    ensures Enabled(s', Send(b, c)) && !Panics(s', Send(b, c)) && SentTo(s, After(s', Send(b, c)), b, cs + [c])
  {
    assert Elements(cs + [c]) == Elements(cs) + {c};
    assert s.sending[b].remaining - Elements(cs) - {c} == s.sending[b].remaining - Elements(cs + [c]);
    var r := s'.channels[c];
    assert Attempted(r, b, s.sending[b].message).buf == Offered(r.buf, s.sending[b].message);
    AttemptedKeeps(r, b, s.sending[b].message);
    hide Attempted, Offered, Elements;
  }

  lemma {:induction false} SendEachSends(s: State, b: BroadcastId, cs: seq<ChannelId>)
    requires b in s.sending && NoRepeats(cs) && forall c :: c in cs ==> c in s.sending[b].remaining
    requires forall c :: c in s.sending[b].remaining ==> c in s.channels && !s.channels[c].closed
    ensures SentTo(s, SendEach(s, b, cs), b, cs)
  {
    if cs == [] {
      assert s.sending[b].remaining - Elements(cs) == s.sending[b].remaining;
    } else {
      var n := |cs| - 1;
      SendEachSends(s, b, cs[..n]);
      assert cs[..n] + [cs[n]] == cs;
      OneMoreSend(s, SendEach(s, b, cs[..n]), b, cs[..n], cs[n]);
      hide SentTo, After;
    }
  }

  lemma ListedAreOpen(s: State, name: string)
    requires Sound(s)
    ensures forall c :: c in Listed(s, name) ==> c in s.channels && !s.channels[c].closed
  {}

  lemma BeginSendsNothing(s: State, b: BroadcastId, name: string, m: Message)
    requires Enabled(s, Begin(b, name, m))
    ensures var begun := After(s, Begin(b, name, m));
      && begun.subs == s.subs && begun.sending == s.sending[b := Sending(name, m, Listed(s, name))]
      && begun.finished == s.finished && begun.channels.Keys == s.channels.Keys
      && forall c :: c in s.channels ==> begun.channels[c].closed == s.channels[c].closed && begun.channels[c].buf == s.channels[c].buf
  {}

  /** A broadcast run in one piece, in whatever order the map is walked, does what Hub.Broadcast
      promises: every subscriber of the name is offered the message, nothing else changes. */
  lemma BroadcastAlone(s: State, b: BroadcastId, name: string, m: Message, cs: seq<ChannelId>)
    requires Sound(s) && Enabled(s, Begin(b, name, m))
    requires NoRepeats(cs) && forall c :: c in cs <==> c in Listed(s, name)
    ensures var sent := SendEach(After(s, Begin(b, name, m)), b, cs);
      && Enabled(sent, End(b))
      && var s' := After(sent, End(b));
         && s'.subs == s.subs && s'.sending == s.sending && s'.channels.Keys == s.channels.Keys
         && forall c :: c in s.channels ==>
              && s'.channels[c].closed == s.channels[c].closed
              && s'.channels[c].buf == if c in Listed(s, name) then Offered(s.channels[c].buf, m) else s.channels[c].buf
  {
    hide Sound, SendEach, Offered;
    ListedAreOpen(s, name);
    BeginSendsNothing(s, b, name, m);
    var begun := After(s, Begin(b, name, m));
    SendEachSends(begun, b, cs);
    assert Elements(cs) == Listed(s, name);
    assert Listed(s, name) - Elements(cs) == {};
  }

  /** A subscription what Hub.Subscribe promises: one more open, empty channel under the name. */
  lemma SubscribeAlone(s: State, name: string, c: ChannelId)
    requires Sound(s) && s.sending == map[] && c !in s.channels
    ensures Enabled(s, Subscribe(name, c)) && !Panics(s, Subscribe(name, c))
    ensures var s' := After(s, Subscribe(name, c));
      && s'.subs == s.subs[name := (if name in s.subs then s.subs[name] else {}) + {c}]
      && c in s'.channels && s'.channels == s.channels[c := s'.channels[c]]
      && s'.channels[c].name == name && s'.channels[c].buf == [] && !s'.channels[c].closed
      && s'.leaving == s.leaving
  {}

  /** And an unsubscription what Hub.Unsubscribe promises. */
  lemma UnsubscribeAlone(s: State, c: ChannelId)
    requires Sound(s) && Enabled(s, Remove(c))
    ensures var name := s.channels[c].name; var removed := After(s, Remove(c));
      && Enabled(removed, Close(c)) && !Panics(removed, Close(c))
      && var s' := After(removed, Close(c));
         && s'.channels[c].closed && s'.channels[c].buf == s.channels[c].buf
         && (forall n :: n in s'.subs ==> c !in s'.subs[n])
         && (forall n :: n in s.subs && n != name ==> n in s'.subs && s'.subs[n] == s.subs[n])
         && (name in s'.subs <==> s.subs[name] != {c})
         && (name in s'.subs ==> s'.subs[name] == s.subs[name] - {c})
  {}
}
