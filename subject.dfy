/**
 * Subject: the registry of attached observers and the fan-out of every
 * message to them. Observers are kept in attachment order and told apart
 * by identity; notify hands the same message to each of them in turn.
 */
module Observation {
  import opened JsValues
  import opened Effects
  import opened Mirroring

  /** The identities of a list of observers, in the same order. */
  function Views(obs: seq<MirrorDeviceSwitchStatus>): (r: seq<Mirror>)
    ensures |r| == |obs|
    ensures forall i :: 0 <= i < |obs| ==> r[i] == obs[i].View()
  {
    seq(|obs|, i requires 0 <= i < |obs| => obs[i].View())
  }

  /** Attaching one more observer adds its identity at the end. */
  lemma ViewsSnoc(obs: seq<MirrorDeviceSwitchStatus>, o: MirrorDeviceSwitchStatus)
    ensures Views(obs + [o]) == Views(obs) + [o.View()]
  {
  }

  /** How an observer reacts to the message being delivered, given the calls made so far. */
  type Reactor = (Mirror, seq<Effect>) -> seq<Effect>

  /**
   * Everything delivering one message to the observers `ms`, one after the
   * other, makes them do, when the calls so far are `h`.
   */
  function FanOut(ms: seq<Mirror>, react: Reactor, h: seq<Effect>): seq<Effect>
    decreases |ms|
  {
    if ms == [] then []
    else
      var first := react(ms[0], h);
      first + FanOut(ms[1..], react, h + first)
  }

  /** Delivering to `a` and then to `b` is delivering to `a + b`. */
  lemma {:induction false} FanOutAppend(a: seq<Mirror>, b: seq<Mirror>, react: Reactor, h: seq<Effect>)
    ensures FanOut(a + b, react, h) == FanOut(a, react, h) + FanOut(b, react, h + FanOut(a, react, h))
    decreases |a|
  {
    if a == [] {
      assert a + b == b;
      assert h + [] == h;
    } else {
      var first := react(a[0], h);
      var rest := FanOut(a[1..], react, h + first);
      assert (a + b)[0] == a[0];
      assert (a + b)[1..] == a[1..] + b;
      FanOutAppend(a[1..], b, react, h + first);
      assert h + first + rest == h + (first + rest);
    }
  }

  /** Observer i reacts on the trace observers 0..i-1 left, for any way the observers react. */
  lemma FanOutStep(ms: seq<Mirror>, i: nat, react: Reactor, h: seq<Effect>,
                   before: seq<Effect>, after: seq<Effect>)
    requires i < |ms|
    requires before == h + FanOut(ms[..i], react, h)
    requires after == before + react(ms[i], before)
    ensures after == h + FanOut(ms[..i + 1], react, h)
  {
    var done, own := FanOut(ms[..i], react, h), react(ms[i], before);
    assert ms[..i + 1] == ms[..i] + [ms[i]];
    FanOutAppend(ms[..i], [ms[i]], react, h);
    assert [ms[i]][1..] == [];
    assert FanOut([ms[i]], react, before) == own + FanOut([], react, before + own);
    assert after == h + (done + own);
  }

  /** The reaction of every observer to one message `msg`, against the cloud `p`. */
  function Deliver(msg: Value, p: Provider): Reactor {
    (m: Mirror, t: seq<Effect>) => Reaction(m, msg, p, t)
  }

  function Broadcast(ms: seq<Mirror>, msg: Value, p: Provider, h: seq<Effect>): seq<Effect> {
    FanOut(ms, Deliver(msg, p), h)
  }

  /** Delivering to `a` and then to `b` is delivering to `a + b`. */
  lemma BroadcastAppend(a: seq<Mirror>, b: seq<Mirror>, msg: Value, p: Provider, h: seq<Effect>)
    ensures Broadcast(a + b, msg, p, h)
            == Broadcast(a, msg, p, h) + Broadcast(b, msg, p, h + Broadcast(a, msg, p, h))
  {
    FanOutAppend(a, b, Deliver(msg, p), h);
  }

  /**
   * Observer i gets the message right after observers 0..i-1 are done, and
   * its reaction is the next stretch of effects.
   */
  lemma BroadcastStep(ms: seq<Mirror>, i: nat, msg: Value, p: Provider, h: seq<Effect>)
    requires i < |ms|
    ensures Broadcast(ms[..i + 1], msg, p, h)
            == Broadcast(ms[..i], msg, p, h) + Reaction(ms[i], msg, p, h + Broadcast(ms[..i], msg, p, h))
  {
    var react := Deliver(msg, p);
    assert ms[..i + 1] == ms[..i] + [ms[i]];
    FanOutAppend(ms[..i], [ms[i]], react, h);
    var before := h + FanOut(ms[..i], react, h);
    var own := react(ms[i], before);
    assert [ms[i]][1..] == [];
    assert FanOut([ms[i]], react, before) == own + FanOut([], react, before + own);
  }

  /**
   * The notify loop's step: a trace holding the reactions of observers
   * 0..i-1, extended by observer i's reaction on it, holds those of 0..i.
   */
  lemma NotifyStep(ms: seq<Mirror>, i: nat, msg: Value, p: Provider, h: seq<Effect>,
                   before: seq<Effect>, after: seq<Effect>)
    requires i < |ms|
    requires before == h + Broadcast(ms[..i], msg, p, h)
    requires after == before + Reaction(ms[i], msg, p, before)
    ensures after == h + Broadcast(ms[..i + 1], msg, p, h)
  {
    var react := Deliver(msg, p);
    assert react(ms[i], before) == Reaction(ms[i], msg, p, before);
    FanOutStep(ms, i, react, h, before, after);
  }

  /**
   * Whatever the message, observers only ever query one of their source
   * devices and only ever command one of their satellites.
   */
  lemma {:induction false} BroadcastTargets(ms: seq<Mirror>, msg: Value, p: Provider, h: seq<Effect>)
    ensures forall e :: e in Broadcast(ms, msg, p, h) && e.Query? ==>
              exists m :: m in ms && m.sourceDeviceId == e.deviceId
    ensures forall e :: e in Broadcast(ms, msg, p, h) && e.Command? ==>
              exists m :: m in ms && m.satelliteDeviceId == e.deviceId && IsOnOff(e.state)
    decreases |ms|
  {
    if ms != [] {
      var first := Reaction(ms[0], msg, p, h);
      assert Broadcast(ms, msg, p, h) == first + Broadcast(ms[1..], msg, p, h + first);
      ReactionTargets(ms[0], msg, p, h);
      BroadcastTargets(ms[1..], msg, p, h + first);
      forall e | e in Broadcast(ms[1..], msg, p, h + first) && e.Query?
        ensures exists m :: m in ms && m.sourceDeviceId == e.deviceId
      {
        var m :| m in ms[1..] && m.sourceDeviceId == e.deviceId;
        assert m in ms;
      }
      forall e | e in Broadcast(ms[1..], msg, p, h + first) && e.Command?
        ensures exists m :: m in ms && m.satelliteDeviceId == e.deviceId && IsOnOff(e.state)
      {
        var m :| m in ms[1..] && m.satelliteDeviceId == e.deviceId && IsOnOff(e.state);
        assert m in ms;
      }
      forall e | e in first && e.Query?
        ensures exists m :: m in ms && m.sourceDeviceId == e.deviceId
      {
        assert ms[0] in ms;
      }
      forall e | e in first && e.Command?
        ensures exists m :: m in ms && m.satelliteDeviceId == e.deviceId && IsOnOff(e.state)
      {
        assert ms[0] in ms;
      }
    }
  }

  predicate NoDuplicates<T(==)>(s: seq<T>) {
    forall i, j :: 0 <= i < j < |s| ==> s[i] != s[j]
  }

  class Subject {
    const name: string
    var observers: seq<MirrorDeviceSwitchStatus>

    /** No observer is attached twice. */
    ghost predicate Valid()
      reads this
    {
      NoDuplicates(observers)
    }

    constructor (name: string)
      ensures Valid()
      ensures this.name == name && observers == []
    {
      this.name := name;
      observers := [];
    }

    /** attach: append an observer unless that very object is attached already. */
    method Attach(o: MirrorDeviceSwitchStatus)
      requires Valid()
      modifies this
      ensures Valid()
      ensures o in old(observers) ==> observers == old(observers)
      ensures o !in old(observers) ==> observers == old(observers) + [o]
    {
      if o in observers {
        return;
      }
      observers := observers + [o];
    }

    /** notify: hand the same message to every attached observer, in attachment order. */
    method Notify(msg: Value, env: Environment)
      modifies env
      ensures observers == old(observers)
      ensures env.trace == old(env.trace) + Broadcast(Views(observers), msg, env.provider, old(env.trace))
    {
      ghost var ms := Views(observers);
      ghost var h := env.trace;
      var i := 0;
      while i < |observers|
        invariant 0 <= i <= |observers|
        invariant env.trace == h + Broadcast(ms[..i], msg, env.provider, h)
      {
        ghost var before := env.trace;
        observers[i].Update(msg, env);
        NotifyStep(ms, i, msg, env.provider, h, before, env.trace);
        i := i + 1;
      }
      assert ms[..i] == ms;
    }
  }
}
