/** One event's fan-out inside one process (internal/realtime/hub.go, and the audience mask of
    realtime.go). A topic's steps run under its mutex: add, deliver, a client's receive, remove and
    shutdown. */
module Realtime {

  type Audience = bv8

  const HOST: Audience := 1
  const PUBLIC: Audience := 2

  /** A message addressed to mask reaches a subscriber holding role. */
  predicate Includes(mask: Audience, role: Audience) { mask & role != 0 }

  predicate ValidAudience(a: Audience) { a != 0 && a & !(HOST | PUBLIC) == 0 }

  datatype Message = Message(id: nat, audience: Audience)

  /** The part of a log a subscriber with this role may see. */
  function Visible(log: seq<Message>, role: Audience): seq<Message> {
    if log == [] then []
    else
      var last := log[|log| - 1];
      Visible(log[..|log| - 1], role) + if Includes(last.audience, role) then [last] else []
  }

  lemma VisibleNext(log: seq<Message>, msg: Message, role: Audience)
    ensures Visible(log + [msg], role) == Visible(log, role) + if Includes(msg.audience, role) then [msg] else []
  {
  }

  lemma {:induction false} VisiblePrefix(a: seq<Message>, b: seq<Message>, role: Audience)
    ensures Visible(a, role) <= Visible(a + b, role)
  {
    if b == [] {
      assert a + b == a;
    } else {
      VisiblePrefix(a, b[..|b| - 1], role);
      assert a + b == a + b[..|b| - 1] + [b[|b| - 1]];
      VisibleNext(a + b[..|b| - 1], b[|b| - 1], role);
    }
  }

  /** What roles a message may reach is exactly what its mask says. */
  lemma HostOnly(mask: Audience)
    requires ValidAudience(mask)
    ensures Includes(mask, PUBLIC) || Includes(mask, HOST)
    ensures !Includes(mask, PUBLIC) <==> mask == HOST
  {
  }

  /** The host is 1, the public 2, and both together 3; there is no other audience. */
  lemma AudienceStatement(mask: Audience)
    ensures ValidAudience(mask) <==> mask == 1 || mask == 2 || mask == 3
    ensures ValidAudience(mask) ==> (Includes(mask, 1) <==> mask != 2) && (Includes(mask, 2) <==> mask != 1)
  {
  }

  /** A role sees every message addressed to it, once, after those sent to it before. */
  lemma {:induction false} VisibleAt(log: seq<Message>, role: Audience, i: nat)
    requires i < |log|
    ensures var before := |Visible(log[..i], role)|;
      if log[i].audience & role != 0 then before < |Visible(log, role)| && Visible(log, role)[before] == log[i]
      else |Visible(log[..i + 1], role)| == before
    ensures i + 1 == |log| ==> |Visible(log, role)| == |Visible(log[..i], role)| + if log[i].audience & role != 0 then 1 else 0
    ensures Visible([], role) == []
  {
    var n := |log| - 1;
    if i < n {
      VisibleAt(log[..n], role, i);
      assert log[..n][..i] == log[..i] && log[..n][..i + 1] == log[..i + 1];
    } else {
      assert log[..i + 1] == log;
    }
  }

  /** One connection's view: a bounded channel, and a record of the log positions it spans. */
  class Subscription {
    const audience: Audience
    const capacity: nat
    var ch: seq<Message>
    var dropped: bool
    var closed: bool
    ghost var start: nat
    ghost var left: nat
    ghost var received: seq<Message>

    constructor (audience: Audience, capacity: nat)
      ensures this.audience == audience && this.capacity == capacity
      ensures ch == [] && received == [] && !dropped && !closed
    {
      this.audience, this.capacity := audience, capacity;
      ch, received, dropped, closed := [], [], false, false;
    }
  }

  const DEFAULT_BUFFER := 32

  function BufferSize(buffer: int): nat { if buffer <= 0 then DEFAULT_BUFFER else buffer }

  class Topic {
    const buffer: nat
    var subscribers: set<Subscription>
    var live: bool
    ghost var log: seq<Message>
    ghost var all: set<Subscription>

    /** What each subscription received and still buffers is, in order and without a gap, what its
        audience was sent from where it joined: up to now while it is subscribed, up to where it left
        once it is not. */
    ghost predicate StreamOk(sub: Subscription) reads this, sub {
      && Stream(log, sub.start, End(sub), sub.audience, sub.received, sub.ch, sub.capacity)
      && (sub in subscribers ==> !sub.dropped && !sub.closed)
    }

    /** Where the subscriber's stream ends: now, or where it left. */
    ghost function End(sub: Subscription): nat reads this, sub { if sub in subscribers then |log| else sub.left }

    ghost predicate Valid() reads this, all {
      && subscribers <= all
      && forall sub :: sub in all ==> StreamOk(sub)
    }

    constructor (buffer: int)
      ensures Valid() && this.buffer == (if buffer <= 0 then 32 else buffer) && log == [] && subscribers == {} && all == {} && live
    {
      this.buffer := BufferSize(buffer);
      subscribers, live, log, all := {}, true, [], {};
    }

    /** One connection, for a role the mask knows. */
    method Subscribe(audience: Audience) returns (sub: Subscription?)
      requires Valid()
      modifies this
      ensures Valid() && log == old(log) && (sub == null <==> !ValidAudience(audience))
      ensures sub == null ==> subscribers == old(subscribers) && all == old(all)
      ensures sub != null ==> fresh(sub) && subscribers == old(subscribers) + {sub} && all == old(all) + {sub}
      ensures sub != null ==> sub.audience == audience && sub.capacity == buffer && sub.start == |log|
    {
      if !ValidAudience(audience) {
        return null;
      }
      sub := new Subscription(audience, buffer);
      Add(sub);
    }

    method Add(sub: Subscription)
      requires Valid() && sub !in all && sub.ch == [] && sub.received == [] && !sub.dropped && !sub.closed
      modifies this, sub
      ensures Valid() && log == old(log) && subscribers == old(subscribers) + {sub} && all == old(all) + {sub}
      ensures sub.start == |log|
    {
      subscribers := subscribers + {sub};
      all := all + {sub};
      sub.start := |log|;
      assert log[sub.start..|log|] == [];
    }

    /** The loop of Deliver: send to each subscriber the message is for, or take it out. */
    method FanOut(msg: Message) returns (overflowed: set<Subscription>)
      requires forall sub :: sub in subscribers ==> !sub.dropped
      modifies this`subscribers, subscribers`ch, subscribers`dropped
      ensures forall sub :: sub in old(subscribers) ==> Sent(msg, sub, old(sub.ch))
      ensures overflowed <= old(subscribers) && forall sub :: sub in old(subscribers) ==> (sub in overflowed <==> sub.dropped)
      ensures subscribers == old(subscribers) - overflowed
    {
      overflowed := {};
      var rest := subscribers;
      while rest != {}
        invariant rest <= old(subscribers) && overflowed <= old(subscribers) - rest
        invariant subscribers == old(subscribers) - overflowed
        invariant forall sub :: sub in rest ==> sub.ch == old(sub.ch) && !sub.dropped
        invariant forall sub :: sub in old(subscribers) - rest ==>
          Sent(msg, sub, old(sub.ch)) && (sub in overflowed <==> sub.dropped)
        decreases |rest|
      {
        var sub :| sub in rest;
        rest := rest - {sub};
        if !Includes(msg.audience, sub.audience) {
          continue;
        }
        if |sub.ch| < sub.capacity {
          sub.ch := sub.ch + [msg];
        } else {
          sub.dropped := true;
          overflowed := overflowed + {sub};
          subscribers := subscribers - {sub};
        }
      }
    }

    /** Hand msg to every subscriber it is for. One whose buffer is full is dropped: it keeps what it
        has and gets nothing more. Nobody else's stream depends on it. */
    method Deliver(msg: Message)
      requires Valid()
      modifies this, subscribers
      ensures Valid() && log == old(log) + [msg] && all == old(all)
      ensures forall sub :: sub in old(subscribers) ==>
        Sent(msg, sub, old(sub.ch)) && sub.received == old(sub.received) && sub.closed == sub.dropped
      ensures subscribers <= old(subscribers) && forall sub :: sub in old(subscribers) ==> (sub in subscribers <==> !sub.dropped)
      ensures live == (old(live) && subscribers != {})
    {
      Dispatch(msg);
      if subscribers == {} {
        live := false;
      }
      forall sub | sub in all ensures StreamOk(sub) {
        assert old(StreamOk(sub));
        if sub in old(subscribers) {
          StreamSent(old(log), msg, sub.start, sub.audience, sub.received, old(sub.ch), sub.ch, sub.capacity, sub.dropped);
        } else {
          StreamEnded(old(log), msg, sub.start, sub.left, sub.audience, sub.received, sub.ch, sub.capacity);
        }
      }
    }

    /** The sends, and the channels of those they dropped. */
    method Dispatch(msg: Message)
      requires forall sub :: sub in subscribers ==> !sub.dropped && !sub.closed
      modifies this`subscribers, this`log, subscribers`ch, subscribers`dropped, subscribers`closed, subscribers`left
      ensures log == old(log) + [msg] && subscribers <= old(subscribers)
      ensures forall sub :: sub in old(subscribers) ==>
        Sent(msg, sub, old(sub.ch)) && sub.closed == sub.dropped && (sub in subscribers <==> !sub.dropped)
      ensures forall sub :: sub in old(subscribers) && sub.dropped ==> sub.left == |old(log)|
    {
      var overflowed := FanOut(msg);
      Release(overflowed);
      log := log + [msg];
    }

    /** Close the channels of subscribers that have left. */
    method Release(gone: set<Subscription>)
      modifies gone`closed, gone`left
      ensures forall sub :: sub in gone ==> sub.closed && sub.left == |log|
    {
      forall sub | sub in gone {
        sub.closed := true;
      }
      forall sub | sub in gone {
        sub.left := |log|;
      }
    }

    /** The client reads its next message, from a closed channel too while something is buffered. */
    method Receive(sub: Subscription) returns (msg: Message)
      requires Valid() && sub in all && sub.ch != []
      modifies sub`ch, sub`received
      ensures Valid() && msg == old(sub.ch)[0] && sub.ch == old(sub.ch)[1..] && sub.received == old(sub.received) + [msg]
    {
      msg := sub.ch[0];
      sub.ch := sub.ch[1..];
      sub.received := sub.received + [msg];
      assert sub.received + sub.ch == old(sub.received + sub.ch);
    }

    /** Close detaches one subscription and releases its channel; closing again changes nothing. */
    method Remove(sub: Subscription)
      requires Valid() && sub in all
      modifies this, sub`closed, sub`left
      ensures Valid() && sub.closed && subscribers == old(subscribers) - {sub} && log == old(log) && all == old(all)
      ensures live == (old(live) && subscribers != {})
    {
      if sub in subscribers {
        sub.left := |log|;
      }
      subscribers := subscribers - {sub};
      if subscribers == {} {
        live := false;
      }
      sub.closed := true;
    }

    method Shutdown()
      requires Valid()
      modifies this, subscribers
      ensures Valid() && subscribers == {} && !live && log == old(log) && all == old(all)
      ensures forall sub :: sub in old(subscribers) ==> sub.closed && sub.ch == old(sub.ch)
    {
      live := false;
      var pending := subscribers;
      subscribers := {};
      Release(pending);
    }

    /** What a client has been given is a prefix of what its audience was sent since it joined, and
        with its buffer it is all of that while it stays subscribed. */
    lemma StreamIsPrefix(sub: Subscription)
      requires Valid() && sub in all
      ensures |sub.ch| <= sub.capacity
      ensures sub.received + sub.ch <= Visible(log[sub.start..], sub.audience)
      ensures sub in subscribers ==> sub.received + sub.ch == Visible(log[sub.start..], sub.audience)
    {
      assert log[sub.start..] == log[sub.start..End(sub)] + log[End(sub)..];
      VisiblePrefix(log[sub.start..End(sub)], log[End(sub)..], sub.audience);
      assert sub in subscribers ==> log[sub.start..End(sub)] == log[sub.start..];
    }
  }

  /** What sending msg does to one subscriber that had these messages buffered. */
  ghost predicate Sent(msg: Message, sub: Subscription, before: seq<Message>) reads sub {
    && sub.ch == (if Includes(msg.audience, sub.audience) && |before| < sub.capacity then before + [msg] else before)
    && (sub.dropped <==> Includes(msg.audience, sub.audience) && |before| >= sub.capacity)
  }

  /** What was received and is buffered is what this role was sent between two log positions. */
  ghost predicate Stream(log: seq<Message>, start: nat, end: nat, role: Audience,
                         received: seq<Message>, ch: seq<Message>, capacity: nat) {
    && start <= end <= |log| && received + ch == Visible(log[start..end], role) && |ch| <= capacity
  }

  /** A longer log changes no stream that ended. */
  lemma StreamEnded(log: seq<Message>, msg: Message, start: nat, end: nat, role: Audience,
                    received: seq<Message>, ch: seq<Message>, capacity: nat)
    requires Stream(log, start, end, role, received, ch, capacity)
    ensures Stream(log + [msg], start, end, role, received, ch, capacity)
  {
    assert (log + [msg])[start..end] == log[start..end];
  }

  /** A stream that is up to now stays so with one more message, or ends where it is dropped. */
  lemma StreamSent(log: seq<Message>, msg: Message, start: nat, role: Audience, received: seq<Message>,
                   before: seq<Message>, after: seq<Message>, capacity: nat, dropped: bool)
    requires Stream(log, start, |log|, role, received, before, capacity)
    requires after == if Includes(msg.audience, role) && |before| < capacity then before + [msg] else before
    requires dropped <==> Includes(msg.audience, role) && |before| >= capacity
    ensures Stream(log + [msg], start, if dropped then |log| else |log| + 1, role, received, after, capacity)
  {
    if dropped {
      StreamEnded(log, msg, start, |log|, role, received, before, capacity);
    } else {
      assert (log + [msg])[start..|log| + 1] == log[start..|log|] + [msg];
      VisibleNext(log[start..|log|], msg, role);
      assert received + (before + [msg]) == received + before + [msg];
    }
  }
}
