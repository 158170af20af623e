/** The port bridge of the bootstrap script (`ElmPorts`, page.js:179-197):
    subscribe to, or send on, a port of the App by name, doing nothing when
    the App has no ports or no port of that name.  `H` is the type of the
    handlers the page subscribes. */
module ElmPorts {
  import opened Wrappers
  import opened JsValues

  /** One port of the App: the handlers subscribed to what the App emits on
      it, in registration order, and the messages the page has sent into it. */
  datatype Port<H> = Port(subscribers: seq<H>, sent: seq<Json>)

  /** `app.ports`, None when the App exposes none. */
  type Ports<H> = Option<map<string, Port<H>>>

  /** `app.ports` after `subscribe(name, h)`: only the port `name` changes, and
      it gains `h` as its last subscriber. */
  function Subscribed<H>(ports: Ports<H>, name: string, h: H): (r: Ports<H>)
    ensures ports.None? || name !in ports.value ==> r == ports
    ensures ports.Some? ==> r.Some? && r.value.Keys == ports.value.Keys
    ensures ports.Some? ==> forall n :: n in ports.value && n != name ==> r.value[n] == ports.value[n]
    ensures ports.Some? && name in ports.value ==>
      r.value[name] == Port(ports.value[name].subscribers + [h], ports.value[name].sent)
  {
    if ports.Some? && name in ports.value then
      var p := ports.value[name];
      Some(ports.value[name := Port(p.subscribers + [h], p.sent)])
    else ports
  }

  /** `app.ports` after `send(name, data)`: only the port `name` changes, and
      `data` is its last message. */
  function Sent<H>(ports: Ports<H>, name: string, data: Json): (r: Ports<H>)
    ensures ports.None? || name !in ports.value ==> r == ports
    ensures ports.Some? ==> r.Some? && r.value.Keys == ports.value.Keys
    ensures ports.Some? ==> forall n :: n in ports.value && n != name ==> r.value[n] == ports.value[n]
    ensures ports.Some? && name in ports.value ==>
      r.value[name] == Port(ports.value[name].subscribers, ports.value[name].sent + [data])
  {
    if ports.Some? && name in ports.value then
      var p := ports.value[name];
      Some(ports.value[name := Port(p.subscribers, p.sent + [data])])
    else ports
  }

  /** The App instance, as far as the bridge sees it. */
  class App<H> {
    var ports: Ports<H>

    constructor (ports: Ports<H>)
      ensures this.ports == ports
    {
      this.ports := ports;
    }
  }

  /** The object `ElmPorts.init(app)` returns. */
  class Bridge<H> {
    const app: App<H>

    constructor (app: App<H>)
      ensures this.app == app
    {
      this.app := app;
    }

    /** `subscribe(name, func)`. */
    method Subscribe(name: string, h: H)
      modifies app
      ensures app.ports == Subscribed(old(app.ports), name, h)
    {
      if app.ports.Some? && name in app.ports.value {
        var p := app.ports.value[name];
        app.ports := Some(app.ports.value[name := Port(p.subscribers + [h], p.sent)]);
      }
    }

    /** `send(name, data)`. */
    method Send(name: string, data: Json)
      modifies app
      ensures app.ports == Sent(old(app.ports), name, data)
    {
      if app.ports.Some? && name in app.ports.value {
        var p := app.ports.value[name];
        app.ports := Some(app.ports.value[name := Port(p.subscribers, p.sent + [data])]);
      }
    }
  }

  /** Subscribing and sending never interfere: in either order they give the
      same ports. */
  lemma SubscribeSendCommute<H>(ports: Ports<H>, a: string, h: H, b: string, data: Json)
    ensures Sent(Subscribed(ports, a, h), b, data) == Subscribed(Sent(ports, b, data), a, h)
  {
    if ports.Some? {
      var l := Sent(Subscribed(ports, a, h), b, data).value;
      var r := Subscribed(Sent(ports, b, data), a, h).value;
      assert l.Keys == r.Keys;
      forall n | n in l
        ensures l[n] == r[n]
      {
        if n == a && n == b {
          var p := ports.value[n];
          assert l[n] == Port(p.subscribers + [h], p.sent + [data]) == r[n];
        }
      }
      assert l == r;
    }
  }

  /** `app.ports` after subscribing each of `hs` to `name` in turn. */
  function SubscribedAll<H>(ports: Ports<H>, name: string, hs: seq<H>): Ports<H>
    decreases |hs|
  {
    if |hs| == 0 then ports else SubscribedAll(Subscribed(ports, name, hs[0]), name, hs[1..])
  }

  /** Handlers subscribed one after another to an existing port end up in
      registration order; the port's messages and every other port stay. */
  lemma {:induction false} SubscribeOrder<H>(ports: Ports<H>, name: string, hs: seq<H>)
    requires ports.Some? && name in ports.value
    ensures SubscribedAll(ports, name, hs).Some?
    ensures SubscribedAll(ports, name, hs).value.Keys == ports.value.Keys
    ensures SubscribedAll(ports, name, hs).value[name] ==
      Port(ports.value[name].subscribers + hs, ports.value[name].sent)
    ensures forall n :: n in ports.value && n != name ==> SubscribedAll(ports, name, hs).value[n] == ports.value[n]
    decreases |hs|
  {
    if |hs| > 0 {
      var next := Subscribed(ports, name, hs[0]);
      SubscribeOrder(next, name, hs[1..]);
      assert ports.value[name].subscribers + [hs[0]] + hs[1..] == ports.value[name].subscribers + hs;
    }
  }
}
