/**
 * The telemetry relay's peer tracking: the relay talks to at most one
 * websocket client, the most recently opened one.  Opening a client makes it
 * current; closing clears it only when the closing client is the current
 * one; sending goes to the current client or nowhere; each inbound message
 * is decoded and handed to the update callback once.  The events of a
 * session are a trace, processed one at a time.
 */
module Relay {
  import opened Base

  /** A websocket peer, by identity. */
  datatype Client = Client(id: nat)

  /** The relay's state: the peer it currently talks to, if any. */
  datatype Server = Server(current: Option<Client>)

  const Fresh: Server := Server(None)

  /** Relay events: `D` is an outgoing payload, `J` a decoded inbound message. */
  datatype Event<D, J> = Open(client: Client) | Close(client: Client) | Send(data: D) | Message(payload: J)

  /** What the relay does: a frame delivered to a peer, or one call of the update callback. */
  datatype Output<D, J> = Delivered(to: Client, data: D) | Updated(payload: J)

  /** A new peer replaces whatever peer was current. */
  function OnOpen(s: Server, c: Client): (r: Server)
    ensures r.current == Some(c)
  {
    Server(Some(c))
  }

  /** Only the closing of the current peer forgets it. */
  function OnClose(s: Server, c: Client): (r: Server)
    ensures s.current == Some(c) ==> r.current.None?
    ensures s.current != Some(c) ==> r == s
  {
    if s.current == Some(c) then Server(None) else s
  }

  /** Sending delivers to the current peer, and nothing is sent without one. */
  function OnSend<D, J>(s: Server, data: D): (r: seq<Output<D, J>>)
    ensures s.current.None? ==> r == []
    ensures s.current.Some? ==> |r| == 1 && r[0].Delivered? && r[0].to == s.current.value && r[0].data == data
  {
    if s.current.Some? then [Delivered(s.current.value, data)] else []
  }

  /** An inbound message is passed to the update callback exactly once; the peer is unaffected. */
  function OnMessage<D, J>(s: Server, payload: J): (r: (Server, seq<Output<D, J>>))
    ensures r.0 == s
    ensures |r.1| == 1 && r.1[0].Updated? && r.1[0].payload == payload
  {
    (s, [Updated(payload)])
  }

  /** One event: the new state and what it produced. */
  function Apply<D, J>(s: Server, e: Event<D, J>): (Server, seq<Output<D, J>>) {
    match e
    case Open(c) => (OnOpen(s, c), [])
    case Close(c) => (OnClose(s, c), [])
    case Send(data) => (s, OnSend(s, data))
    case Message(payload) => OnMessage(s, payload)
  }

  /** The state after a trace. */
  function Run<D, J>(s: Server, evs: seq<Event<D, J>>): Server
    decreases |evs|
  {
    if evs == [] then s else Apply(Run(s, evs[..|evs| - 1]), evs[|evs| - 1]).0
  }

  /** Everything a trace produced, in order. */
  function Outputs<D, J>(s: Server, evs: seq<Event<D, J>>): seq<Output<D, J>>
    decreases |evs|
  {
    if evs == [] then []
    else Outputs(s, evs[..|evs| - 1]) + Apply(Run(s, evs[..|evs| - 1]), evs[|evs| - 1]).1
  }

  /**
   * `c` was opened at position `k` of the trace, no later client was
   * opened, and `c` has not closed since.
   */
  predicate OpenedLast<D, J>(evs: seq<Event<D, J>>, k: int, c: Client) {
    && 0 <= k < |evs|
    && evs[k] == Open(c)
    && forall j :: k < j < |evs| ==> !evs[j].Open? && !(evs[j].Close? && evs[j].client == c)
  }

  /**
   * From a fresh relay, the current peer is exactly the client that was
   * opened last and has not closed since, and there is none when the last
   * opened client has closed or no client ever opened.
   */
  lemma {:induction false} CurrentIsLastOpened<D, J>(evs: seq<Event<D, J>>, c: Client)
    ensures Run(Fresh, evs).current == Some(c) <==> exists k :: OpenedLast(evs, k, c)
    decreases |evs|
  {
    if evs != [] {
      var init := evs[..|evs| - 1];
      var e := evs[|evs| - 1];
      CurrentIsLastOpened(init, c);
      if Run(Fresh, evs).current == Some(c) {
        if e == Open(c) {
          assert OpenedLast(evs, |evs| - 1, c);
        } else {
          assert Run(Fresh, init).current == Some(c);
          var k :| OpenedLast(init, k, c);
          assert OpenedLast(evs, k, c);
        }
      }
      if k :| OpenedLast(evs, k, c) {
        if k < |evs| - 1 {
          assert OpenedLast(init, k, c);
          assert Run(Fresh, init).current == Some(c);
        }
      }
    }
  }

  /**
   * After any trace from a fresh relay, a send reaches exactly the client
   * that was opened last and has not closed since, and is dropped when there
   * is no such client.
   */
  lemma SendReachesLastOpened<D, J>(evs: seq<Event<D, J>>, data: D)
    ensures var out: seq<Output<D, J>> := OnSend(Run(Fresh, evs), data);
      && (out == [] <==> forall c: Client, k :: !OpenedLast(evs, k, c))
      && (forall o :: o in out ==> o.Delivered? && o.data == data && exists k :: OpenedLast(evs, k, o.to))
  {
    var s := Run(Fresh, evs);
    if s.current.Some? {
      CurrentIsLastOpened(evs, s.current.value);
    } else {
      forall c: Client, k | true
        ensures !OpenedLast(evs, k, c)
      {
        CurrentIsLastOpened(evs, c);
      }
    }
  }

  /** The callbacks a list of outputs made, in order. */
  function Updates<D, J>(outs: seq<Output<D, J>>): seq<J>
    decreases |outs|
  {
    if outs == [] then []
    else Updates(outs[..|outs| - 1]) + (if outs[|outs| - 1].Updated? then [outs[|outs| - 1].payload] else [])
  }

  /** The payloads of a trace's inbound messages, in order. */
  function Messages<D, J>(evs: seq<Event<D, J>>): seq<J>
    decreases |evs|
  {
    if evs == [] then []
    else Messages(evs[..|evs| - 1]) + (if evs[|evs| - 1].Message? then [evs[|evs| - 1].payload] else [])
  }

  lemma {:induction false} UpdatesConcat<D, J>(a: seq<Output<D, J>>, b: seq<Output<D, J>>)
    ensures Updates(a + b) == Updates(a) + Updates(b)
    decreases |b|
  {
    if b == [] {
      assert a + b == a;
    } else {
      var b' := b[..|b| - 1];
      assert (a + b)[..|a + b| - 1] == a + b';
      UpdatesConcat(a, b');
    }
  }

  /** Over any trace, the update callback runs once per inbound message, in message order. */
  lemma {:induction false} EveryMessageUpdatesOnce<D, J>(s: Server, evs: seq<Event<D, J>>)
    ensures Updates(Outputs(s, evs)) == Messages(evs)
    decreases |evs|
  {
    if evs != [] {
      var init := evs[..|evs| - 1];
      var e := evs[|evs| - 1];
      var step := Apply(Run(s, init), e).1;
      EveryMessageUpdatesOnce(s, init);
      UpdatesConcat(Outputs(s, init), step);
      match e
      case Open(_) => assert step == [];
      case Close(_) => assert step == [];
      case Send(data) =>
        if step != [] {
          assert step == [Delivered(Run(s, init).current.value, data)];
          assert step[..0] == [];
        }
      case Message(p) =>
        assert step == [Updated(p)];
        assert step[..0] == [];
    }
  }
}
