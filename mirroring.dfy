/**
 * EWeLinkMirrorDeviceSwitchStatus: an observer that copies the power state
 * of a source device onto a satellite device. Its decision logic is the
 * function Reaction, from a message and the cloud's answers to the calls
 * it makes; the class below carries it out call by call and is proved to
 * make exactly those calls.
 */
module Mirroring {
  import opened JsValues
  import opened Effects
  import opened Wrappers

  /** The fixed identity of one mirroring observer. */
  datatype Mirror = Mirror(name: string, sourceDeviceId: string, satelliteDeviceId: string)

  /** The text sendError hands to the notifier: the raw message tagged with the observer's name. */
  function NoticeText(name: string, raw: string): (r: string)
    ensures TaggedBy(name, r) && r[|name| + 4..] == raw
  {
    var tag := "[" + name + "]: ";
    assert |tag| == |name| + 4;
    assert (tag + raw)[..|tag|] == tag && (tag + raw)[|tag|..] == raw;
    tag + raw
  }

  predicate IsOnOff(state: string) {
    state == "on" || state == "off"
  }

  /**
   * The command rejected with `null` or `undefined`: reading `err.message` in
   * updateSwitch's catch then throws, so updateSwitch itself rejects.
   */
  predicate RejectedWithoutReason(resp: CommandResponse) {
    resp.CommandThrew? && (resp.reason.Null? || resp.reason.Undefined?)
  }

  /** updateSwitch: command the satellite, then report a failed or refused command. */
  function SwitchReaction(m: Mirror, state: string, p: Provider, h: seq<Effect>): (r: seq<Effect>)
    requires IsOnOff(state)
  {
    var command := Command(m.satelliteDeviceId, state);
    match p.setPowerState(h, m.satelliteDeviceId, state)
    case CommandThrew(reason) =>
      if reason.Null? || reason.Undefined? then [command, UnhandledRejection]
      else [command, Notice(NoticeText(m.name, "Update error - " + Text(Get(reason, "message"))))]
    case SetResult(error, msg, _) =>
      if Truthy(msg) then
        [command, Notice(NoticeText(m.name, "Error setting power state to " + state
                                            + " - code: " + Text(error) + ", message: " + Text(msg)))]
      else
        [command]
  }

  /** The notice raised when the power-state query reports an error. */
  function QueryErrorText(error: Value, msg: Value): string {
    "Error getting device state - error: " + Text(error) + ", msg: " + Text(msg)
  }

  /** processSysMsg: on a device of this pair coming online, re-read the source and mirror it. */
  function SysMsgReaction(m: Mirror, msg: Value, p: Provider, h: seq<Effect>): (r: seq<Effect>)
    requires msg.Obj?
  {
    var deviceid := Get(msg, "deviceid");
    var params := Get(msg, "params");
    if !LooseEquals(deviceid, m.sourceDeviceId) && !LooseEquals(deviceid, m.satelliteDeviceId) then []
    else if !Truthy(params) || !Truthy(Get(params, "online")) then []
    else
      var asked := [Query(m.sourceDeviceId)];
      match p.powerState(h, m.sourceDeviceId)
      case QueryRejected => asked + [UnhandledRejection]
      case PowerState(error, errorMsg, state) =>
        if Truthy(error) then asked + [Notice(NoticeText(m.name, QueryErrorText(error, errorMsg)))]
        else if !Truthy(state) then asked
        else if !LooseEquals(state, "on") && !LooseEquals(state, "off") then asked
        else asked + SwitchReaction(m, state.s, p, h + asked)
  }

  /** The switch value an "update" message asks for, if it carries one the observer acts on. */
  function RequestedSwitch(params: Value): (r: Option<string>)
    ensures r.Some? ==> IsOnOff(r.value)
  {
    if !Truthy(params) then None
    else
      var sw := Get(params, "switch");
      if Truthy(sw) && (sw == Str("on") || sw == Str("off")) then Some(sw.s) else None
  }

  /**
   * update: everything one message makes the observer do, in order.
   * A null message passes the typeof check and then throws on
   * hasOwnProperty, so its promise rejects.
   */
  function Reaction(m: Mirror, msg: Value, p: Provider, h: seq<Effect>): seq<Effect>
  {
    match msg
    case Null => [UnhandledRejection]
    case Obj(props) =>
      if "params" !in props || "action" !in props then []
      else if LooseEquals(props["action"], "sysmsg") then SysMsgReaction(m, msg, p, h)
      else if LooseEquals(props["action"], "update") && RequestedSwitch(props["params"]).Some? then
        SwitchReaction(m, RequestedSwitch(props["params"]).value, p, h)
      else []
    case _ => []
  }

  /**
   * Whatever the message and the answers, an observer only queries its
   * source, only commands its satellite with "on" or "off", and makes at
   * most three calls.
   */
  lemma ReactionTargets(m: Mirror, msg: Value, p: Provider, h: seq<Effect>)
    ensures var r := Reaction(m, msg, p, h);
      && (forall e :: e in r && e.Query? ==> e.deviceId == m.sourceDeviceId)
      && (forall e :: e in r && e.Command? ==> e.deviceId == m.satelliteDeviceId && IsOnOff(e.state))
      && |r| <= 3
  {
  }

  /** The text starts with the "[name]: " tag sendError puts on every notice. */
  predicate TaggedBy(name: string, text: string) {
    |text| >= |name| + 4 && text[..|name| + 4] == "[" + name + "]: "
  }


  /**
   * One mirroring observer. Its fields never change; it is an object because
   * the subject tells observers apart by identity, not by value.
   */
  class MirrorDeviceSwitchStatus {
    const name: string
    const sourceDeviceId: string
    const satelliteDeviceId: string

    constructor (name: string, sourceDeviceId: string, satelliteDeviceId: string)
      ensures View() == Mirror(name, sourceDeviceId, satelliteDeviceId)
    {
      this.name := name;
      this.sourceDeviceId := sourceDeviceId;
      this.satelliteDeviceId := satelliteDeviceId;
    }

    function View(): Mirror {
      Mirror(name, sourceDeviceId, satelliteDeviceId)
    }

    method Update(msg: Value, env: Environment)
      modifies env
      ensures env.trace == old(env.trace) + Reaction(View(), msg, env.provider, old(env.trace))
    {
      if msg.Null? {
        env.RejectUnhandled();
        return;
      }
      if !msg.Obj? || "params" !in msg.props || "action" !in msg.props {
        return;
      }
      var action := msg.props["action"];
      if LooseEquals(action, "sysmsg") {
        ProcessSysMsg(msg, env);
        return;
      }
      var params := msg.props["params"];
      if LooseEquals(action, "update") && Truthy(params) {
        var sw := Get(params, "switch");
        if Truthy(sw) && (sw == Str("on") || sw == Str("off")) {
          UpdateSwitch(sw.s, env);
        }
      }
    }

    method ProcessSysMsg(msg: Value, env: Environment)
      requires msg.Obj?
      modifies env
      ensures env.trace == old(env.trace) + SysMsgReaction(View(), msg, env.provider, old(env.trace))
    {
      var deviceid := Get(msg, "deviceid");
      if !LooseEquals(deviceid, sourceDeviceId) && !LooseEquals(deviceid, satelliteDeviceId) {
        return;
      }
      var params := Get(msg, "params");
      if !Truthy(params) || !Truthy(Get(params, "online")) {
        return;
      }
      var resp := env.GetDevicePowerState(sourceDeviceId);
      match resp
      case QueryRejected =>
        env.RejectUnhandled();
      case PowerState(error, errorMsg, state) =>
        if Truthy(error) {
          SendError(QueryErrorText(error, errorMsg), env);
          return;
        }
        if !Truthy(state) {
          return;
        }
        if !LooseEquals(state, "on") && !LooseEquals(state, "off") {
          return;
        }
        UpdateSwitch(state.s, env);
    }

    method UpdateSwitch(state: string, env: Environment)
      requires IsOnOff(state)
      modifies env
      ensures env.trace == old(env.trace) + SwitchReaction(View(), state, env.provider, old(env.trace))
    {
      var resp := env.SetDevicePowerState(satelliteDeviceId, state);
      match resp
      case CommandThrew(reason) =>
        if reason.Null? || reason.Undefined? {
          env.RejectUnhandled();
        } else {
          SendError("Update error - " + Text(Get(reason, "message")), env);
        }
      case SetResult(error, msg, _) =>
        if Truthy(msg) {
          SendError("Error setting power state to " + state + " - code: " + Text(error)
                    + ", message: " + Text(msg), env);
        }
    }

    method SendError(raw: string, env: Environment)
      modifies env
      ensures env.trace == old(env.trace) + [Notice(NoticeText(name, raw))]
    {
      env.NotifyError(NoticeText(name, raw));
    }
  }

  /** A sysmsg the observer acts on: about one of its two devices, with a truthy params.online. */
  predicate QualifyingSysMsg(m: Mirror, props: map<string, Value>) {
    && "params" in props && "action" in props
    && LooseEquals(props["action"], "sysmsg")
    && (LooseEquals(Get(Obj(props), "deviceid"), m.sourceDeviceId)
        || LooseEquals(Get(Obj(props), "deviceid"), m.satelliteDeviceId))
    && Truthy(props["params"]) && Truthy(Get(props["params"], "online"))
  }

  /**
   * What updateSwitch does: exactly one command, to the satellite, then at
   * most one notice; it rejects only when the command rejected without a reason.
   */
  lemma SwitchReactionShape(m: Mirror, state: string, p: Provider, h: seq<Effect>)
    requires IsOnOff(state)
    ensures var r := SwitchReaction(m, state, p, h);
      var resp := p.setPowerState(h, m.satelliteDeviceId, state);
      && r[0] == Command(m.satelliteDeviceId, state)
      && Commands(r) == [Command(m.satelliteDeviceId, state)]
      && Queries(r) == []
      && |Notices(r)| <= 1
      && (UnhandledRejection in r <==> RejectedWithoutReason(resp))
      && (RejectedWithoutReason(resp) ==> r == [Command(m.satelliteDeviceId, state), UnhandledRejection])
      && (resp.CommandThrew? && !RejectedWithoutReason(resp) ==>
            Notices(r) == [NoticeText(m.name, "Update error - " + Text(Get(resp.reason, "message")))])
      && (resp.SetResult? ==> (Notices(r) != [] <==> Truthy(resp.msg)))
  {
    var r := SwitchReaction(m, state, p, h);
    FiltersDistribute([r[0]], r[1..]);
    assert r == [r[0]] + r[1..];
  }

  /** A message that is not an object, or lacks an own params or action, does nothing. */
  lemma DiscardsShapelessMessages(m: Mirror, msg: Value, p: Provider, h: seq<Effect>)
    requires !msg.Null?
    requires !msg.Obj? || "params" !in msg.props || "action" !in msg.props
    ensures Reaction(m, msg, p, h) == []
  {
  }

  /** An "update" carrying switch "on" or "off" commands the satellite once and queries nothing. */
  lemma UpdateMirrorsSwitch(m: Mirror, props: map<string, Value>, sw: string, p: Provider, h: seq<Effect>)
    requires "action" in props && props["action"] == Str("update")
    requires "params" in props && props["params"].Obj?
    requires "switch" in props["params"].props && props["params"].props["switch"] == Str(sw)
    requires IsOnOff(sw)
    ensures var r := Reaction(m, Obj(props), p, h);
      && r[0] == Command(m.satelliteDeviceId, sw)
      && Commands(r) == [Command(m.satelliteDeviceId, sw)]
      && Queries(r) == []
  {
    assert RequestedSwitch(props["params"]) == Some(sw);
    assert Reaction(m, Obj(props), p, h) == SwitchReaction(m, sw, p, h);
    SwitchReactionShape(m, sw, p, h);
  }

  /** An "update" is acted on whatever device it names: its deviceid is never read. */
  lemma UpdateIgnoresDeviceId(m: Mirror, props: map<string, Value>, v: Value, p: Provider, h: seq<Effect>)
    requires "action" in props && LooseEquals(props["action"], "update")
    ensures Reaction(m, Obj(props), p, h) == Reaction(m, Obj(props["deviceid" := v]), p, h)
  {
  }

  /** Any other action, or an "update" without switch "on"/"off", does nothing. */
  lemma OtherActionsInert(m: Mirror, props: map<string, Value>, p: Provider, h: seq<Effect>)
    requires "params" in props && "action" in props
    requires !LooseEquals(props["action"], "sysmsg")
    requires !LooseEquals(props["action"], "update") || RequestedSwitch(props["params"]).None?
    ensures Reaction(m, Obj(props), p, h) == []
  {
  }

  /** A sysmsg about neither device of the pair, or without a truthy params.online, does nothing. */
  lemma IrrelevantSysMsgInert(m: Mirror, props: map<string, Value>, p: Provider, h: seq<Effect>)
    requires "params" in props && "action" in props && LooseEquals(props["action"], "sysmsg")
    requires !QualifyingSysMsg(m, props)
    ensures Reaction(m, Obj(props), p, h) == []
  {
  }

  /** A qualifying sysmsg queries the source device, and only it, once, even when it is about the satellite. */
  lemma SysMsgQueriesSource(m: Mirror, props: map<string, Value>, p: Provider, h: seq<Effect>)
    requires QualifyingSysMsg(m, props)
    ensures var r := Reaction(m, Obj(props), p, h);
      && r[0] == Query(m.sourceDeviceId)
      && Queries(r) == [m.sourceDeviceId]
  {
    var r := Reaction(m, Obj(props), p, h);
    var asked := [Query(m.sourceDeviceId)];
    assert r == asked + r[1..];
    FiltersDistribute(asked, r[1..]);
    match p.powerState(h, m.sourceDeviceId)
    case QueryRejected =>
    case PowerState(error, errorMsg, state) =>
      if !Truthy(error) && Truthy(state) && (LooseEquals(state, "on") || LooseEquals(state, "off")) {
        SwitchReactionShape(m, state.s, p, h + asked);
      }
  }

  /** A truthy error from the query is reported in one notice, and nothing is commanded. */
  lemma QueryErrorReported(m: Mirror, props: map<string, Value>, p: Provider, h: seq<Effect>,
                           error: Value, errorMsg: Value, state: Value)
    requires QualifyingSysMsg(m, props)
    requires p.powerState(h, m.sourceDeviceId) == PowerState(error, errorMsg, state)
    requires Truthy(error)
    ensures var r := Reaction(m, Obj(props), p, h);
      && Notices(r) == [NoticeText(m.name, QueryErrorText(error, errorMsg))]
      && Commands(r) == []
      && Queries(r) == [m.sourceDeviceId]
  {
    var notice := Notice(NoticeText(m.name, QueryErrorText(error, errorMsg)));
    assert Reaction(m, Obj(props), p, h) == [Query(m.sourceDeviceId)] + [notice];
    FiltersDistribute([Query(m.sourceDeviceId)], [notice]);
    FiltersOfOne(Query(m.sourceDeviceId));
    FiltersOfOne(notice);
  }

  /** Otherwise a queried state of "on" or "off" is copied onto the satellite by one command. */
  lemma QueriedStateMirrored(m: Mirror, props: map<string, Value>, p: Provider, h: seq<Effect>,
                             error: Value, errorMsg: Value, state: string)
    requires QualifyingSysMsg(m, props)
    requires p.powerState(h, m.sourceDeviceId) == PowerState(error, errorMsg, Str(state))
    requires !Truthy(error) && IsOnOff(state)
    ensures var r := Reaction(m, Obj(props), p, h);
      && |r| >= 2 && r[0] == Query(m.sourceDeviceId) && r[1] == Command(m.satelliteDeviceId, state)
      && Commands(r) == [Command(m.satelliteDeviceId, state)]
  {
    var asked := [Query(m.sourceDeviceId)];
    var rest := SwitchReaction(m, state, p, h + asked);
    assert SysMsgReaction(m, Obj(props), p, h) == asked + rest;
    assert Reaction(m, Obj(props), p, h) == asked + rest;
    SwitchReactionShape(m, state, p, h + asked);
    FiltersDistribute(asked, rest);
    FiltersOfOne(Query(m.sourceDeviceId));
  }

  /** A queried state other than "on"/"off" (or none) stops after the query. */
  lemma QueriedStateOtherwiseInert(m: Mirror, props: map<string, Value>, p: Provider, h: seq<Effect>,
                                   error: Value, errorMsg: Value, state: Value)
    requires QualifyingSysMsg(m, props)
    requires p.powerState(h, m.sourceDeviceId) == PowerState(error, errorMsg, state)
    requires !Truthy(error) && state != Str("on") && state != Str("off")
    ensures Reaction(m, Obj(props), p, h) == [Query(m.sourceDeviceId)]
  {
  }

  /** A rejected query is not caught: the update's promise rejects after the query. */
  lemma QueryRejectionEscapes(m: Mirror, props: map<string, Value>, p: Provider, h: seq<Effect>)
    requires QualifyingSysMsg(m, props)
    requires p.powerState(h, m.sourceDeviceId) == QueryRejected
    ensures Reaction(m, Obj(props), p, h) == [Query(m.sourceDeviceId), UnhandledRejection]
  {
  }

  /** Where an unhandled rejection in processSysMsg comes from: the command or the query. */
  lemma SysMsgRejectionSources(m: Mirror, msg: Value, p: Provider, h: seq<Effect>)
    requires msg.Obj?
    ensures var r := SysMsgReaction(m, msg, p, h);
      UnhandledRejection in r && Commands(r) != [] ==>
        && |r| >= 2 && r[|r| - 1] == UnhandledRejection && r[|r| - 2].Command?
        && RejectedWithoutReason(p.setPowerState(h + r[..|r| - 2], r[|r| - 2].deviceId, r[|r| - 2].state))
    ensures var r := SysMsgReaction(m, msg, p, h);
      UnhandledRejection in r && Commands(r) == [] ==> r == [Query(m.sourceDeviceId), UnhandledRejection]
  {
    var r := SysMsgReaction(m, msg, p, h);
    var deviceid, params := Get(msg, "deviceid"), Get(msg, "params");
    if !LooseEquals(deviceid, m.sourceDeviceId) && !LooseEquals(deviceid, m.satelliteDeviceId) {
      assert r == [];
    } else if !Truthy(params) || !Truthy(Get(params, "online")) {
      assert r == [];
    } else {
      var asked := [Query(m.sourceDeviceId)];
      match p.powerState(h, m.sourceDeviceId)
      case QueryRejected =>
        assert r == asked + [UnhandledRejection];
        FiltersDistribute(asked, [UnhandledRejection]);
        FiltersOfOne(Query(m.sourceDeviceId));
        FiltersOfOne(UnhandledRejection);
      case PowerState(error, errorMsg, state) =>
        if Truthy(error) {
          assert r == asked + [Notice(NoticeText(m.name, QueryErrorText(error, errorMsg)))];
        } else if !Truthy(state) || (!LooseEquals(state, "on") && !LooseEquals(state, "off")) {
          assert r == asked;
        } else {
          var sr := SwitchReaction(m, state.s, p, h + asked);
          assert r == asked + sr;
          SwitchReactionShape(m, state.s, p, h + asked);
          if UnhandledRejection in r {
            assert r == asked + [Command(m.satelliteDeviceId, state.s), UnhandledRejection];
            assert r[..|r| - 2] == asked;
          }
        }
    }
  }

  /**
   * Where an unhandled rejection comes from. After a command, only from that
   * command rejecting without a reason, as the last call but one; with no
   * command, only from a null message or from a rejected query.
   */
  lemma RejectionSources(m: Mirror, msg: Value, p: Provider, h: seq<Effect>)
    ensures var r := Reaction(m, msg, p, h);
      UnhandledRejection in r && Commands(r) != [] ==>
        && |r| >= 2 && r[|r| - 1] == UnhandledRejection && r[|r| - 2].Command?
        && RejectedWithoutReason(p.setPowerState(h + r[..|r| - 2], r[|r| - 2].deviceId, r[|r| - 2].state))
    ensures var r := Reaction(m, msg, p, h);
      UnhandledRejection in r && Commands(r) == [] ==>
        msg.Null? || r == [Query(m.sourceDeviceId), UnhandledRejection]
  {
    var r := Reaction(m, msg, p, h);
    if msg.Obj? && "params" in msg.props && "action" in msg.props {
      var props := msg.props;
      if LooseEquals(props["action"], "sysmsg") {
        assert r == SysMsgReaction(m, msg, p, h);
        SysMsgRejectionSources(m, msg, p, h);
      } else if LooseEquals(props["action"], "update") && RequestedSwitch(props["params"]).Some? {
        SwitchReactionShape(m, RequestedSwitch(props["params"]).value, p, h);
        assert r[..0] == [] && h + [] == h;
      }
    } else if msg.Null? {
      FiltersOfOne(UnhandledRejection);
    }
  }

  /** Every notice the observer sends carries its "[name]: " tag. */
  lemma NoticesTagged(m: Mirror, msg: Value, p: Provider, h: seq<Effect>)
    ensures forall e :: e in Reaction(m, msg, p, h) && e.Notice? ==> TaggedBy(m.name, e.text)
  {
  }

  // The scenarios of the observer's unit tests: source "myDeviceId", satellite "6789".

  function TestObserver(): Mirror {
    Mirror("test", "myDeviceId", "6789")
  }

  function OnlineSysMsg(deviceid: string): Value {
    Obj(map["action" := Str("sysmsg"), "apikey" := Str("abcd-efg-hijk"), "deviceid" := Str(deviceid),
            "params" := Obj(map["online" := Bool(true)])])
  }

  lemma TestIrrelevantMessagesDiscarded(p: Provider, h: seq<Effect>)
    ensures Reaction(TestObserver(), Str("pong"), p, h) == []
    ensures Reaction(TestObserver(), Obj(map["error" := Num(0), "apikey" := Str("abcd-efg-hijk"),
                                             "config" := Obj(map["hb" := Num(1), "hbInterval" := Num(145)]),
                                             "sequence" := Str("123456789")]), p, h) == []
    ensures Reaction(TestObserver(), Obj(map["deviceid" := Str("notMyDevice"),
                                             "params" := Obj(map["switch" := Str("on")])]), p, h) == []
    ensures Reaction(TestObserver(), OnlineSysMsg("notMyDevice"), p, h) == []
    ensures Reaction(TestObserver(), Obj(map["action" := Str("uninterestingAction"),
                                             "deviceid" := Str("myDeviceId"),
                                             "params" := Obj(map["switch" := Str("on")])]), p, h) == []
  {
  }

  lemma TestRelevantUpdateAccepted(p: Provider, h: seq<Effect>)
    ensures Commands(Reaction(TestObserver(), Obj(map["action" := Str("update"), "deviceid" := Str("myDeviceId"),
                                                      "params" := Obj(map["switch" := Str("on")])]), p, h))
            == [Command("6789", "on")]
  {
    UpdateMirrorsSwitch(TestObserver(), map["action" := Str("update"), "deviceid" := Str("myDeviceId"),
                                            "params" := Obj(map["switch" := Str("on")])], "on", p, h);
  }

  lemma TestQueryErrorReported(p: Provider, h: seq<Effect>)
    requires p.powerState(h, "myDeviceId") == PowerState(Str("Fake error"), Str("Fake message"), Undefined)
    ensures Reaction(TestObserver(), OnlineSysMsg("myDeviceId"), p, h)
            == [Query("myDeviceId"),
                Notice(NoticeText("test", "Error getting device state - error: Fake error, msg: Fake message"))]
  {
    var m, msg := TestObserver(), OnlineSysMsg("myDeviceId");
    var notice := Notice(NoticeText(m.name, QueryErrorText(Str("Fake error"), Str("Fake message"))));
    assert Reaction(m, msg, p, h) == [Query(m.sourceDeviceId)] + [notice];
    TestQueryErrorText();
  }

  /** The text of the test's query error, written out. */
  lemma TestQueryErrorText()
    ensures QueryErrorText(Str("Fake error"), Str("Fake message"))
            == "Error getting device state - error: Fake error, msg: Fake message"
  {
    assert "Error getting device state - error: " + "Fake error"
        == "Error getting device state - error: Fake error";
    assert "Error getting device state - error: Fake error" + ", msg: "
        == "Error getting device state - error: Fake error, msg: ";
    assert "Error getting device state - error: Fake error, msg: " + "Fake message"
        == "Error getting device state - error: Fake error, msg: Fake message";
  }

  lemma TestQueriedStateMirrored(p: Provider, h: seq<Effect>)
    requires p.powerState(h, "myDeviceId") == PowerState(Undefined, Undefined, Str("off"))
    ensures Commands(Reaction(TestObserver(), OnlineSysMsg("myDeviceId"), p, h)) == [Command("6789", "off")]
  {
    QueriedStateMirrored(TestObserver(), OnlineSysMsg("myDeviceId").props, p, h, Undefined, Undefined, "off");
  }
}
