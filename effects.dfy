/**
 * The world outside the process as the observers see it: the eWeLink cloud,
 * answering power-state queries and commands, and the operator notifier.
 * Every call into it is recorded, in order, as an Effect.
 */
module Effects {
  import opened JsValues

  /** What `getDevicePowerState` resolves to, or that its promise rejected. */
  datatype QueryResponse =
    | PowerState(error: Value, msg: Value, state: Value)
    | QueryRejected

  /** What `setDevicePowerState` resolves to, or the reason it rejected with (any value). */
  datatype CommandResponse =
    | SetResult(error: Value, msg: Value, state: Value)
    | CommandThrew(reason: Value)

  datatype Effect =
    | Query(deviceId: string)                  // getDevicePowerState(deviceId)
    | Command(deviceId: string, state: string) // setDevicePowerState(deviceId, state)
    | Notice(text: string)                     // errorNotifier({errMsg: text})
    | UnhandledRejection                       // an update() promise rejected and nobody awaits it

  /**
   * The cloud as an oracle: each answer may depend on everything that
   * happened before the call and on the call's arguments.
   */
  datatype Provider = Provider(
    powerState: (seq<Effect>, string) -> QueryResponse,
    setPowerState: (seq<Effect>, string, string) -> CommandResponse)

  /** The ids queried in a trace, in order. */
  function Queries(t: seq<Effect>): seq<string> {
    if t == [] then []
    else (if t[0].Query? then [t[0].deviceId] else []) + Queries(t[1..])
  }

  /** The commands issued in a trace, in order. */
  function Commands(t: seq<Effect>): seq<Effect> {
    if t == [] then []
    else (if t[0].Command? then [t[0]] else []) + Commands(t[1..])
  }

  /** The notice texts sent in a trace, in order. */
  function Notices(t: seq<Effect>): seq<string> {
    if t == [] then []
    else (if t[0].Notice? then [t[0].text] else []) + Notices(t[1..])
  }

  lemma {:induction false} FiltersDistribute(a: seq<Effect>, b: seq<Effect>)
    ensures Queries(a + b) == Queries(a) + Queries(b)
    ensures Commands(a + b) == Commands(a) + Commands(b)
    ensures Notices(a + b) == Notices(a) + Notices(b)
    decreases |a|
  {
    if a == [] {
      assert a + b == b;
    } else {
      var e := a[0];
      assert (a + b)[0] == e;
      assert (a + b)[1..] == a[1..] + b;
      FiltersDistribute(a[1..], b);
      var q := if e.Query? then [e.deviceId] else [];
      var c := if e.Command? then [e] else [];
      var n := if e.Notice? then [e.text] else [];
      assert Queries(a + b) == q + Queries(a[1..] + b);
      assert Queries(a) == q + Queries(a[1..]);
      assert Commands(a + b) == c + Commands(a[1..] + b);
      assert Commands(a) == c + Commands(a[1..]);
      assert Notices(a + b) == n + Notices(a[1..] + b);
      assert Notices(a) == n + Notices(a[1..]);
    }
  }

  lemma FiltersOfOne(e: Effect)
    ensures Queries([e]) == if e.Query? then [e.deviceId] else []
    ensures Commands([e]) == if e.Command? then [e] else []
    ensures Notices([e]) == if e.Notice? then [e.text] else []
  {
    assert [e][1..] == [];
  }

  /** The cloud and the notifier, with the record of every call made to them. */
  class Environment {
    var trace: seq<Effect>
    const provider: Provider

    constructor (provider: Provider)
      ensures trace == [] && this.provider == provider
    {
      this.provider := provider;
      trace := [];
    }

    method GetDevicePowerState(deviceId: string) returns (r: QueryResponse)
      modifies this
      ensures trace == old(trace) + [Query(deviceId)]
      ensures r == provider.powerState(old(trace), deviceId)
    {
      r := provider.powerState(trace, deviceId);
      trace := trace + [Query(deviceId)];
    }

    method SetDevicePowerState(deviceId: string, state: string) returns (r: CommandResponse)
      modifies this
      ensures trace == old(trace) + [Command(deviceId, state)]
      ensures r == provider.setPowerState(old(trace), deviceId, state)
    {
      r := provider.setPowerState(trace, deviceId, state);
      trace := trace + [Command(deviceId, state)];
    }

    method NotifyError(text: string)
      modifies this
      ensures trace == old(trace) + [Notice(text)]
    {
      trace := trace + [Notice(text)];
    }

    method RejectUnhandled()
      modifies this
      ensures trace == old(trace) + [UnhandledRejection]
    {
      trace := trace + [UnhandledRejection];
    }
  }
}
