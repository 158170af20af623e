/** The main entry point of the bootstrap script (page.js:201-263) once the
    App is constructed: which handler is subscribed to which port, and what
    the store, storage-listener and token-refresh handlers send back to the
    App.  The deferred sends (`setTimeout(..., 0)`) are modelled as happening
    right after the operation that schedules them. */
module Bootstrap {
  import opened Wrappers
  import opened JsValues
  import opened Storage
  import opened Auth
  import opened ElmPorts

  /** The handlers the page subscribes to the App's outgoing ports. */
  datatype Handler = OnDetectNewVersion | OnLogout | OnStore | OnFixedMidashi

  /** The JavaScript object `{ global: ..., local: ... }` handed to the App. */
  function StoredToJson(v: Stored): (j: Json)
    ensures j.Obj? && Prop(j, "global") == v.global && Prop(j, "local") == v.local
  {
    Obj(map["global" := v.global, "local" := v.local])
  }

  /** The ports after the four subscriptions, in the order the script makes
      them. */
  function Wired(ports: Ports<Handler>): (r: Ports<Handler>)
    ensures ports.None? ==> r == ports
    ensures ports.Some? ==> r.Some? && r.value.Keys == ports.value.Keys
  {
    var p1 := Subscribed(ports, "detectNewVersion", OnDetectNewVersion);
    var p2 := Subscribed(p1, "logout", OnLogout);
    var p3 := Subscribed(p2, "store", OnStore);
    Subscribed(p3, "fixedMidashi", OnFixedMidashi)
  }

  /** The ports the page subscribes to. */
  const WIRED_PORTS := {"detectNewVersion", "logout", "store", "fixedMidashi"}

  /** The port name each handler is subscribed to. */
  function PortOf(h: Handler): string {
    match h
    case OnDetectNewVersion => "detectNewVersion"
    case OnLogout => "logout"
    case OnStore => "store"
    case OnFixedMidashi => "fixedMidashi"
  }

  /** After wiring, each port the App has among the four gains exactly its own
      handler, and no other port changes; an App without ports is untouched. */
  lemma WiredPorts(ports: Ports<Handler>)
    ensures ports.None? ==> Wired(ports) == ports
    ensures ports.Some? ==> Wired(ports).Some? && Wired(ports).value.Keys == ports.value.Keys
    ensures ports.Some? ==> forall h: Handler :: PortOf(h) in ports.value ==>
      Wired(ports).value[PortOf(h)] ==
        Port(ports.value[PortOf(h)].subscribers + [h], ports.value[PortOf(h)].sent)
    ensures ports.Some? ==> forall n :: n in ports.value && n !in WIRED_PORTS ==>
      Wired(ports).value[n] == ports.value[n]
  {
    if ports.Some? {
      var p1 := Subscribed(ports, "detectNewVersion", OnDetectNewVersion);
      var p2 := Subscribed(p1, "logout", OnLogout);
      var p3 := Subscribed(p2, "store", OnStore);
      assert p3.Some? && p3.value.Keys == ports.value.Keys;
      forall h: Handler | PortOf(h) in ports.value
        ensures Wired(ports).value[PortOf(h)] ==
          Port(ports.value[PortOf(h)].subscribers + [h], ports.value[PortOf(h)].sent)
      {
        match h
        case OnDetectNewVersion =>
          assert p3.value["detectNewVersion"] == p1.value["detectNewVersion"];
        case OnLogout =>
          assert p3.value["logout"] == p2.value["logout"];
        case OnStore =>
        case OnFixedMidashi =>
          assert p3.value["fixedMidashi"] == ports.value["fixedMidashi"];
      }
    }
  }

  /** The subscriptions of page.js:231-257, made through the bridge. */
  method Wire(bridge: Bridge<Handler>)
    modifies bridge.app
    ensures bridge.app.ports == Wired(old(bridge.app.ports))
  {
    bridge.Subscribe("detectNewVersion", OnDetectNewVersion);
    bridge.Subscribe("logout", OnLogout);
    bridge.Subscribe("store", OnStore);
    bridge.Subscribe("fixedMidashi", OnFixedMidashi);
  }

  /** The `store` handler: store the value, then send that same value to
      `onStorageChanged`.  When the store throws, the send is never scheduled. */
  method HandleStore(storage: PageStorage, bridge: Bridge<Handler>, value: Json) returns (threw: bool)
    modifies storage.area, bridge.app
    ensures threw <==> Updated(old(storage.area.items), storage.currentPath, value).None?
    ensures storage.area.items ==
      if threw then old(storage.area.items)
      else Updated(old(storage.area.items), storage.currentPath, value).value
    ensures bridge.app.ports ==
      if threw then old(bridge.app.ports) else Sent(old(bridge.app.ports), "onStorageChanged", value)
  {
    threw := storage.Store(value);
    if !threw {
      bridge.Send("onStorageChanged", value);
    }
  }

  /** The storage listener's callback: a change this page's listener accepts
      is sent to `onStorageChanged`; any other event sends nothing. */
  method HandleStorageEvent(storage: PageStorage, bridge: Bridge<Handler>, ev: StorageEvent)
    modifies bridge.app
    ensures bridge.app.ports ==
      match storage.OnStorageEvent(ev)
      case Some(v) => Sent(old(bridge.app.ports), "onStorageChanged", StoredToJson(v))
      case None => old(bridge.app.ports)
  {
    var change := storage.OnStorageEvent(ev);
    if change.Some? {
      bridge.Send("onStorageChanged", StoredToJson(change.value));
    }
  }

  /** One tick of the token refresh: a renewed token is sent to
      `onTokenChanged`; otherwise nothing is sent. */
  method HandleRefresh(session: Session, bridge: Bridge<Handler>, r: RefreshResult)
    modifies session, bridge.app
    ensures session.token == TokenAfter(old(session.token), r)
    ensures bridge.app.ports ==
      if r.Refreshed? then Sent(old(bridge.app.ports), "onTokenChanged", Str(r.token))
      else old(bridge.app.ports)
  {
    var notified := session.UpdateToken(r);
    if notified.Some? {
      bridge.Send("onTokenChanged", Str(notified.value));
    }
  }
}
