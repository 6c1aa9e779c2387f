# Observe-and-act: eWeLink switch mirroring, modelled in Dafny

This project models the core of a small Node service that copies the on/off
state of one eWeLink smart switch (the *source*) onto another (the
*satellite*). The service subscribes to the vendor's websocket. It passes
every message to a list of observers. Each observer decides whether the
message concerns it, and then re-issues a power command through the same
vendor API.

Three pieces are modelled:

- **Subject** (`subject.dfy`, module `Observation`): the registry of attached
  observers. `Attach` appends an observer unless that same object is already
  attached. `Notify` hands one message to every observer in attachment order.
  The class invariant `Valid()` says that no observer is attached twice.
- **Mirroring observer** (`mirroring.dfy`, module `Mirroring`). The guard
  chain of `update`/`processSysMsg`/`updateSwitch`/`sendError` is the pure
  function `Reaction`. Given a message, the observer's identity and the
  cloud's answers, it returns the calls the observer makes, in order: `Query`
  (get power state), `Command` (set power state), `Notice` (error notifier),
  and `UnhandledRejection` when the `update` promise rejects. `Observation.Broadcast`
  is the same for a whole notification: each observer's `Reaction` in turn. The class
  `MirrorDeviceSwitchStatus` carries out the chain call by call against an
  `Environment`, and each method is proved to make exactly the calls its spec
  function lists.
- **EWeLinkSubject** (`ewelink_subject.dfy` and `device_directory.dfy`,
  modules `EWeLink` and `DeviceDirectory`). `setDeviceMap` folds the device
  list into a name→id map where the last device with a name wins.
  `createObserver` resolves the two configured names or fails. The
  `startWorking` loop attaches the observers that can be built, in config
  order. The websocket callback forwards each message to `notify`.

Supporting modules: `JsValues` (`js_values.dfy`) models the JavaScript values
a message or response can hold, with truthiness, property reads, `==`
against a string literal, and template-literal text. `Effects`
(`effects.dfy`) holds the effect trace, the cloud as an oracle, and the
`Environment` class that records each call. `Wrappers` (`wrappers.dfy`)
holds `Option` and `Result`.

The cloud is an oracle. Each answer is a function of the arguments and of
every call made before it, so answers may change over time. The connection
and the notifier are passed to `Update` and `Notify` as an `Environment`
parameter. Every observer built by `EWeLinkSubject` shares the subject's
connection and notifier, so nothing is lost by this.

The model follows the code as written. In particular:

- an `"update"` message is acted on whatever its `deviceid`
  (`UpdateIgnoresDeviceId`);
- every truthy `error` from the power-state query is reported; there is no
  exemption for an "offline" code (`QueryErrorReported`);
- a rejected power-state query is not caught. The `update` promise rejects,
  and `notify` does not await it (`QueryRejectionEscapes`);
- a `null` message passes the `typeof` test and then throws in
  `hasOwnProperty`, so it ends in an unhandled rejection too;
- a power command that rejects with `null` or `undefined` is not absorbed:
  reading `err.message` in `updateSwitch`'s `catch` throws, so no notice is
  sent and the `update` promise rejects (`RejectionSources`). Any other
  rejection reason is reported with the text of its `message` property;
- a command response is reported only when its `msg` is truthy. An `error`
  code with an empty `msg` is not reported;
- a config whose `type` is not `"mirrorDeviceSwitchStatus"` falls through
  `createObserver`'s switch, which returns `undefined`. `attach` then throws
  on `getName()`. The loop's `catch` absorbs this, so such a config is skipped
  like a failed one (`NoObserverBuilt`);
- there is no reconnection loop and no id→name map in the code, so the model
  has neither.

## Model

| member | source | states |
|---|---|---|
| `Observation.Subject.constructor` | src/classes/Subject.ts:6-12 | A new subject has no observers and satisfies the no-duplicates invariant. |
| `Observation.Subject.Attach` | src/classes/Subject.ts:18-30 | Attaching an object already in the list leaves the list unchanged. Otherwise the list becomes the old list plus that observer at the end: the old list is a prefix and the length grows by one. No observer is ever attached twice. |
| `Observation.Subject.Notify` | src/classes/Subject.ts:33-36 | The list is unchanged. The trace grows by exactly `Broadcast` of the observers: each observer reacts once, in list order, to the same message. |
| `Observation.FanOut` | src/classes/Subject.ts:35 | Its body is the model of the `forEach`: the first observer reacts on the current trace, then the rest react on the trace extended by that reaction. Its properties are stated by `FanOutAppend` and by the `Broadcast` lemmas below. |
| `Observation.Broadcast` | src/classes/Subject.ts:33-36 | Its body is the model of `notify`: `FanOut` of the observers, each reacting with `Reaction` to the same message. `BroadcastStep`, `NotifyStep`, `BroadcastAppend` and `BroadcastTargets` state its properties. `Subject.Notify` is proved to carry it out. |
| `Observation.FanOutAppend` | src/classes/Subject.ts:35 | Delivering to `a + b` is delivering to `a`, then to `b` on the trace `a` left, for any way the observers react. |
| `Observation.FanOutStep` | src/classes/Subject.ts:35 | For any way the observers react, a trace holding the reactions of observers 0..i-1, extended by observer i's reaction on it, holds those of observers 0..i. |
| `Observation.BroadcastStep` | src/classes/Subject.ts:35 | Observer i receives the message right after observers 0..i-1 are done. The effects that follow are exactly its reaction to the unchanged message. |
| `Observation.NotifyStep` | src/classes/Subject.ts:35 | A trace holding the reactions of observers 0..i-1, extended by observer i's reaction on that trace, holds the reactions of observers 0..i. This is the step of the `notify` loop. |
| `Observation.BroadcastAppend` | src/classes/Subject.ts:35 | Delivering to a list `a + b` is delivering to `a`, then to `b` on the trace `a` left. So attaching an observer adds its reaction at the end of every later notification. |
| `Observation.BroadcastTargets` | src/classes/Subject.ts:33-36 | Whatever the message, every query in a notification is for some attached observer's source device. Every command is an on/off command to some attached observer's satellite. |
| `Mirroring.Reaction` | src/classes/EWeLink/EWeLinkMirrorDeviceSwitchStatus.ts:24-46 | Its body is the model of `update`: the shape guard, the "sysmsg" branch and the "update" branch, plus the rejection of a null message. `ReactionTargets` through `RejectionSources` state its properties, and `MirrorDeviceSwitchStatus.Update` is proved to carry it out. |
| `Mirroring.SysMsgReaction` | src/classes/EWeLink/EWeLinkMirrorDeviceSwitchStatus.ts:48-73 | Its body is the model of `processSysMsg`. `IrrelevantSysMsgInert`, `SysMsgQueriesSource`, `QueryErrorReported`, `QueriedStateMirrored`, `QueriedStateOtherwiseInert`, `QueryRejectionEscapes` and `SysMsgRejectionSources` state its properties. `MirrorDeviceSwitchStatus.ProcessSysMsg` is proved to carry it out. |
| `Mirroring.SwitchReaction` | src/classes/EWeLink/EWeLinkMirrorDeviceSwitchStatus.ts:75-90 | Its body is the model of `updateSwitch`. `SwitchReactionShape` states its properties, and `MirrorDeviceSwitchStatus.UpdateSwitch` is proved to carry it out. |
| `Mirroring.RequestedSwitch` | src/classes/EWeLink/EWeLinkMirrorDeviceSwitchStatus.ts:36-39 | Only "on" or "off" is ever requested. `UpdateMirrorsSwitch` and `OtherActionsInert` state when a value is requested. |
| `Mirroring.NoticeText` | src/classes/EWeLink/EWeLinkMirrorDeviceSwitchStatus.ts:92-93 | The notice text starts with the "[name]: " tag, and the raw message follows it unchanged. |
| `Mirroring.QueryErrorText` | src/classes/EWeLink/EWeLinkMirrorDeviceSwitchStatus.ts:66 | Its body is the model of the query-error text, built from the template-literal renderings of `error` and `msg`. `QueryErrorReported` and `TestQueryErrorText` state it. |
| `Mirroring.ReactionTargets` | src/classes/EWeLink/EWeLinkMirrorDeviceSwitchStatus.ts:24-96 | An observer's reaction to any message only queries its source, only commands its satellite with "on" or "off", and makes at most three calls. |
| `Mirroring.DiscardsShapelessMessages` | src/classes/EWeLink/EWeLinkMirrorDeviceSwitchStatus.ts:26-32 | A message that is not an object, or that lacks an own `params` or `action` property, causes no query, command or notice. |
| `Mirroring.UpdateMirrorsSwitch` | src/classes/EWeLink/EWeLinkMirrorDeviceSwitchStatus.ts:36-42 | An `"update"` whose `params.switch` is "on" or "off" starts with one command to the satellite with that value. It issues exactly that one command and no query. |
| `Mirroring.UpdateIgnoresDeviceId` | src/classes/EWeLink/EWeLinkMirrorDeviceSwitchStatus.ts:36-42 | The reaction to an `"update"` message is the same whatever its `deviceid` is, or whether it has one. |
| `Mirroring.OtherActionsInert` | src/classes/EWeLink/EWeLinkMirrorDeviceSwitchStatus.ts:34-44 | Any action other than "sysmsg" or "update", or an "update" without a switch of "on"/"off", causes nothing. |
| `Mirroring.IrrelevantSysMsgInert` | src/classes/EWeLink/EWeLinkMirrorDeviceSwitchStatus.ts:57-60 | A "sysmsg" whose `deviceid` is neither the source nor the satellite, or whose `params.online` is falsy, causes nothing. |
| `Mirroring.SysMsgQueriesSource` | src/classes/EWeLink/EWeLinkMirrorDeviceSwitchStatus.ts:57-64 | A qualifying "sysmsg" first queries the source device. It makes exactly one query, for the source, even when the message is about the satellite. |
| `Mirroring.QueryErrorReported` | src/classes/EWeLink/EWeLinkMirrorDeviceSwitchStatus.ts:66 | A truthy query `error` yields exactly one notice, "[name]: Error getting device state - error: E, msg: M". No command is issued and exactly one query is made. |
| `Mirroring.QueriedStateMirrored` | src/classes/EWeLink/EWeLinkMirrorDeviceSwitchStatus.ts:68-72 | With no error, a queried state of "on" or "off" gives the query followed by exactly one command of that state to the satellite. |
| `Mirroring.QueriedStateOtherwiseInert` | src/classes/EWeLink/EWeLinkMirrorDeviceSwitchStatus.ts:68-69 | With no error, any other or missing state stops after the query. |
| `Mirroring.QueryRejectionEscapes` | src/classes/EWeLink/EWeLinkMirrorDeviceSwitchStatus.ts:64 | A rejected query is not caught. The query is followed only by an unhandled rejection. |
| `Mirroring.SwitchReactionShape` | src/classes/EWeLink/EWeLinkMirrorDeviceSwitchStatus.ts:75-90 | updateSwitch issues exactly one command, to the satellite, and makes no query. It rejects if and only if the command rejected with `null` or `undefined`, and then makes no other call. Any other rejection reason yields exactly the notice "[name]: Update error - <reason.message>". A returned response yields a notice exactly when its `msg` is truthy. There is never more than one notice. |
| `Mirroring.RejectionSources` | src/classes/EWeLink/EWeLinkMirrorDeviceSwitchStatus.ts:64-89 | When a reaction issued a command, an unhandled rejection can only be its last call, right after that command, and only because the command rejected without a reason. When it issued none, the rejection comes from a null message or a rejected query, which is then the only other call. |
| `Mirroring.SysMsgRejectionSources` | src/classes/EWeLink/EWeLinkMirrorDeviceSwitchStatus.ts:57-72 | In processSysMsg, an unhandled rejection after the command means the command rejected without a reason. With no command, the rejection follows the source query, and that query is the only other call. |
| `Mirroring.NoticesTagged` | src/classes/EWeLink/EWeLinkMirrorDeviceSwitchStatus.ts:92-96 | Every notice an observer sends starts with "[name]: ". |
| `Mirroring.MirrorDeviceSwitchStatus.constructor` | src/classes/EWeLink/EWeLinkMirrorDeviceSwitchStatus.ts:10-21 | The observer is bound to its name, source id and satellite id. |
| `Mirroring.MirrorDeviceSwitchStatus.Update` | src/classes/EWeLink/EWeLinkMirrorDeviceSwitchStatus.ts:24-46 | The calls made while handling a message are exactly `Reaction` of that message. |
| `Mirroring.MirrorDeviceSwitchStatus.ProcessSysMsg` | src/classes/EWeLink/EWeLinkMirrorDeviceSwitchStatus.ts:48-73 | The calls made for a "sysmsg" are exactly its `SysMsgReaction`. |
| `Mirroring.MirrorDeviceSwitchStatus.UpdateSwitch` | src/classes/EWeLink/EWeLinkMirrorDeviceSwitchStatus.ts:75-90 | The calls made are exactly one command followed by what `SwitchReaction` prescribes for the response: a notice, nothing, or an unhandled rejection. |
| `Mirroring.MirrorDeviceSwitchStatus.SendError` | src/classes/EWeLink/EWeLinkMirrorDeviceSwitchStatus.ts:92-96 | Exactly one notice is sent, the raw text tagged with the observer's name. |
| `Mirroring.TestIrrelevantMessagesDiscarded` | test/unit/classes/EWeLink/EWeLinkMirrorDeviceSwitchStatus.ts:59-94 | The five irrelevant messages of the unit test cause nothing. |
| `Mirroring.TestRelevantUpdateAccepted` | test/unit/classes/EWeLink/EWeLinkMirrorDeviceSwitchStatus.ts:96-105 | The test's "update"/"on" message commands satellite "6789" to "on". |
| `Mirroring.TestQueryErrorReported` | test/unit/classes/EWeLink/EWeLinkMirrorDeviceSwitchStatus.ts:113-131 | The test's failing query yields the query of "myDeviceId" and the notice the test expects. |
| `Mirroring.TestQueriedStateMirrored` | test/unit/classes/EWeLink/EWeLinkMirrorDeviceSwitchStatus.ts:133-152 | The test's queried state "off" is commanded onto "6789". |
| `DeviceDirectory.AddDevice` | src/classes/EWeLink/EWeLinkSubject.ts:117 | One reduce step adds or overwrites exactly the device's name with its id and leaves every other key unchanged. |
| `DeviceDirectory.LastIndexOf` | src/classes/EWeLink/EWeLinkSubject.ts:116-118 | Reference for last-write-wins: the index of the last device with a name, or none if no device has it. |
| `DeviceDirectory.FoldDevices` | src/classes/EWeLink/EWeLinkSubject.ts:116-118 | Its body is the model of the `reduce`: `AddDevice` applied to each device in list order. `FoldSnoc` states its step. |
| `DeviceDirectory.BuildDeviceMap` | src/classes/EWeLink/EWeLinkSubject.ts:116-118 | Its body is the fold from the empty map. `DeviceMapLastWins`, `DeviceMapKeys` and `DistinctNamesResolve` state its properties. |
| `DeviceDirectory.FoldSnoc` | src/classes/EWeLink/EWeLinkSubject.ts:116-118 | Folding one more device applies one more step to the already folded map. |
| `DeviceDirectory.DeviceMapLastWins` | src/classes/EWeLink/EWeLinkSubject.ts:116-118 | A name is in the map exactly when some device has it. It maps to the id of the last such device. |
| `DeviceDirectory.DeviceMapKeys` | src/classes/EWeLink/EWeLinkSubject.ts:116-118 | The map's keys are exactly the names in the device list. |
| `DeviceDirectory.DistinctNamesResolve` | src/classes/EWeLink/EWeLinkSubject.ts:116-118 | With no name repeated, every device's name maps to that device's own id. |
| `DeviceDirectory.TestThreeDevices` | test/unit/classes/EWeLink/EWeLinkSubject.ts:37-56 | The test's three devices give exactly the expected by-name map. |
| `EWeLink.ResolveObserver` | src/classes/EWeLink/EWeLinkSubject.ts:57-78 | A config yields an observer exactly when its kind is "mirrorDeviceSwitchStatus" and both names map to non-empty ids. The observer is then bound to those ids. A missing source is reported before a missing satellite, as "device not found" for that name. |
| `EWeLink.ResolveAgainstDevices` | src/classes/EWeLink/EWeLinkSubject.ts:57-73 | Against the map built from a device list, a config yields an observer exactly when both names occur with a non-empty last id. The observer is bound to those last ids. |
| `EWeLink.Accepted` | src/classes/EWeLink/EWeLinkSubject.ts:86-95 | The observers kept by the attach loop are never more than the configs. |
| `EWeLink.AcceptedMembers` | src/classes/EWeLink/EWeLinkSubject.ts:86-95 | An observer is kept if and only if some config resolves to it. |
| `EWeLink.AcceptedStep` | src/classes/EWeLink/EWeLinkSubject.ts:86-95 | Config i adds its observer, if it yields one, right after those of configs 0..i-1. |
| `EWeLink.AcceptedAppend` | src/classes/EWeLink/EWeLinkSubject.ts:86-95 | A failed config drops only itself. What later configs yield is appended unchanged. |
| `EWeLink.EWeLinkSubject.constructor` | src/classes/EWeLink/EWeLinkSubject.ts:37-55 | A new EWeLink subject has a fresh, empty, valid observer registry named "EWeLink" and keeps its observer configs. |
| `EWeLink.EWeLinkSubject.SetDeviceMap` | src/classes/EWeLink/EWeLinkSubject.ts:112-123 | The stored map is the fold of the device list. |
| `EWeLink.EWeLinkSubject.CreateObserver` | src/classes/EWeLink/EWeLinkSubject.ts:57-78 | Fails exactly when `ResolveObserver` fails, with the same error. A missing device's error says "Could not find device <name>", as thrown at lines 63-64. Otherwise it returns a new observer bound to the resolved name and ids. |
| `EWeLink.EWeLinkSubject.TryAttach` | src/classes/EWeLink/EWeLinkSubject.ts:87-94 | One turn of the attach loop. A config that resolves attaches exactly one fresh observer with the resolved identity, at the end of the list. A config that fails leaves the list unchanged, since the error is caught. No duplicates either way. |
| `EWeLink.EWeLinkSubject.StartWorking` | src/classes/EWeLink/EWeLinkSubject.ts:80-95 | After loading the map, the registry is the old list followed by new observers, one per config that resolves, in config order. It still holds no duplicates. |
| `EWeLink.EWeLinkSubject.OnWebsocketMessage` | src/classes/EWeLink/EWeLinkSubject.ts:103-108 | Each websocket message is delivered unchanged to every attached observer, exactly as `Notify` does. |

## Left out

- Network I/O is not modelled: the eWeLink client, `getDevices`,
  `getCredentials` and `openWebSocket`. The device list is an input of
  `StartWorking`. The callback is `OnWebsocketMessage`. Power-state queries
  and commands are oracle answers recorded in the trace.
- Promises and interleaving: `notify` starts each `update` without awaiting
  it, so in the running service the calls of several observers can
  interleave. The model delivers to observers one after the other.
- Logging (`log.debug/info/error`) is not behaviour of the model. Only the
  notifier's text is kept.
- The notifier is assumed not to throw. If it threw inside `updateSwitch`'s
  `try`, the `catch` would send a second notice.
- Observer, the abstract base class, is not a separate type. The registry
  holds `MirrorDeviceSwitchStatus` objects, the only observer kind in the
  code.
- JavaScript coercions beyond what the guards need are not modelled.
  `LooseEquals` treats numbers and booleans as unequal to every string. That
  is exact for "sysmsg", "update", "on" and "off", but not for a numeric
  `deviceid` compared with a numeric-looking id. Arrays, inherited
  (prototype) properties, fractional numbers and NaN are not modelled. This
  includes a directory lookup of a name such as "toString".
- Before `setDeviceMap` runs, the `deviceMap` field is unset in the code.
  The model starts it as the empty map. `createObserver` is only called
  after `setDeviceMap`.
- The subject factory, process bootstrap and configuration loading
  (`src/subjectFactory.ts`, `src/main.ts`, `config/default.js`) are not part
  of this model.
- The unit test of EWeLinkSubject calls `getDeviceMaps`, `deviceMapById` and
  `handleWebsocketMessage`. None of these exists in the code, so there is no
  id→name map here. `TestThreeDevices` checks only the by-name map that test
  expects.
