/** The print views' shared state machine: the script payload that tracks the
    selected device, edits to it, running it, and the error a failed run
    leaves on screen. */
module PrintBase {
  import opened Host

  /** The last signal the print button was given. */
  datatype ButtonSignal = NoSignal | ActionSuccess | ActionError

  /** A print view's state. `scriptData` is the payload the service control
      edits: a `service` field and a `data` record among any others. */
  datatype PrintView = PrintView(
    selectedPrinterDevice: Option<Device>,
    serviceName: string,
    scriptData: map<string, Value>,
    error: Option<string>,
    button: ButtonSignal)

  /** A freshly mounted view: empty payload, no error. */
  function Mount(serviceName: string, device: Option<Device>): (v: PrintView)
    ensures v.scriptData == map[] && v.error.None? && v.button == NoSignal
    ensures v.serviceName == serviceName && v.selectedPrinterDevice == device
  {
    PrintView(device, serviceName, map[], None, NoSignal)
  }

  /** The fields of the payload's current `data` record (an absent or
      non-record `data` spreads as no fields). */
  function ExistingData(sd: map<string, Value>): map<string, Value> {
    if "data" in sd && sd["data"].Obj? then sd["data"].fields else map[]
  }

  /** The qualified service name the payload carries. */
  function QualifiedService(serviceName: string): string {
    Platform + "." + serviceName
  }

  /** `willUpdate`: when the device property changed and a device is set,
      point the payload at that device; otherwise leave everything alone. */
  function WillUpdate(v: PrintView, changed: set<string>): (r: PrintView)
    ensures r.selectedPrinterDevice == v.selectedPrinterDevice && r.serviceName == v.serviceName
    ensures r.error == v.error && r.button == v.button
    ensures "selectedPrinterDevice" !in changed || v.selectedPrinterDevice.None? ==> r == v
    ensures "selectedPrinterDevice" in changed && v.selectedPrinterDevice.Some? ==>
              var d := v.selectedPrinterDevice.value;
              && r.scriptData.Keys == v.scriptData.Keys + {"service", "data"}
              && (forall k :: k in v.scriptData && k != "service" && k != "data" ==> r.scriptData[k] == v.scriptData[k])
              && r.scriptData["service"] == Str(Platform + "." + v.serviceName)
              && r.scriptData["data"].Obj?
              && r.scriptData["data"].fields.Keys == ExistingData(v.scriptData).Keys + {"config_entry", "device_id"}
              && r.scriptData["data"].fields["config_entry"] == Str(d.primaryConfigEntry)
              && r.scriptData["data"].fields["device_id"] == Str(d.id)
              && (forall k :: k in ExistingData(v.scriptData) && k != "config_entry" && k != "device_id" ==>
                    r.scriptData["data"].fields[k] == ExistingData(v.scriptData)[k])
  {
    if "selectedPrinterDevice" !in changed then v
    else if v.selectedPrinterDevice.Some? then
      var d := v.selectedPrinterDevice.value;
      var data := ExistingData(v.scriptData) + DeviceContext(d);
      v.(scriptData := v.scriptData["service" := Str(QualifiedService(v.serviceName))]["data" := Obj(data)])
    else v
  }

  /** Pointing the payload at the same device twice changes nothing more. */
  lemma WillUpdateIdempotent(v: PrintView, changed: set<string>)
    ensures WillUpdate(WillUpdate(v, changed), changed) == WillUpdate(v, changed)
  {
    var once := WillUpdate(v, changed);
    if "selectedPrinterDevice" in changed && v.selectedPrinterDevice.Some? {
      var twice := WillUpdate(once, changed);
      assert ExistingData(once.scriptData).Keys == ExistingData(v.scriptData).Keys + {"config_entry", "device_id"};
      assert twice.scriptData["data"] == once.scriptData["data"];
      assert twice.scriptData == once.scriptData;
    }
  }

  /** `_scriptDataChanged`: shallow-merge the edit over the payload (the edit
      wins) and clear the error. */
  function ScriptDataChanged(v: PrintView, edit: map<string, Value>): (r: PrintView)
    ensures r.error.None?
    ensures r.scriptData.Keys == v.scriptData.Keys + edit.Keys
    ensures forall k :: k in edit ==> r.scriptData[k] == edit[k]
    ensures forall k :: k in v.scriptData && k !in edit ==> r.scriptData[k] == v.scriptData[k]
    ensures r.selectedPrinterDevice == v.selectedPrinterDevice && r.serviceName == v.serviceName
    ensures r.button == v.button
  {
    v.(scriptData := v.scriptData + edit, error := None)
  }

  /** The payload's `data` field as it is sent (undefined when absent). */
  function PayloadData(sd: map<string, Value>): Option<Value> {
    if "data" in sd then Some(sd["data"]) else None
  }

  /** `_runScript`: clear the error and issue exactly one call. */
  function RunScript(v: PrintView): (r: (PrintView, ServiceCall))
    ensures r.0 == v.(error := None)
    ensures r.1.domain == Platform && r.1.service == v.serviceName
    ensures "data" in v.scriptData <==> r.1.data.Some?
    ensures "data" in v.scriptData ==> r.1.data.value == v.scriptData["data"]
  {
    (v.(error := None), ServiceCall(Platform, v.serviceName, PayloadData(v.scriptData)))
  }

  /** How the host's call settled; a rejection may carry no message. */
  datatype Outcome = Resolved | Rejected(message: Option<string>)

  /** The call's settlement: success marks the button; failure records the
      message and marks the button as failed. */
  function Settle(v: PrintView, o: Outcome): (r: PrintView)
    ensures r.scriptData == v.scriptData && r.selectedPrinterDevice == v.selectedPrinterDevice
    ensures r.serviceName == v.serviceName
    ensures o.Resolved? ==> r.error == v.error && r.button == ActionSuccess
    ensures o.Rejected? ==> r.error == o.message && r.button == ActionError
  {
    match o
    case Resolved => v.(button := ActionSuccess)
    case Rejected(m) => v.(error := m, button := ActionError)
  }

  /** The error alert's text; shown iff an error is recorded. */
  function ErrorAlert(v: PrintView): (a: Option<string>)
    ensures a.Some? <==> v.error.Some?
    ensures a.Some? ==> a.value == v.error.value
  {
    if v.error.Some? then Some(v.error.value) else None
  }

  /** A run that succeeds shows no error, whatever was shown before. */
  lemma RunThenResolveShowsNoError(v: PrintView)
    ensures ErrorAlert(Settle(RunScript(v).0, Resolved)).None?
    ensures Settle(RunScript(v).0, Resolved).button == ActionSuccess
  {
  }

  /** A run that is rejected with a message shows exactly that message. */
  lemma RunThenRejectShowsMessage(v: PrintView, m: string)
    ensures ErrorAlert(Settle(RunScript(v).0, Rejected(Some(m)))) == Some(m)
    ensures Settle(RunScript(v).0, Rejected(Some(m))).button == ActionError
  {
  }

  /** A view mounted for `print_start` and then given a device sends exactly
      that device's context, and a resolved call leaves no error. */
  lemma DispatchToSelectedDevice(d: Device)
    ensures var v := WillUpdate(Mount("print_start", Some(d)), {"selectedPrinterDevice"});
            && RunScript(v).1 == ServiceCall(Platform, "print_start",
                 Some(Obj(map["config_entry" := Str(d.primaryConfigEntry), "device_id" := Str(d.id)])))
            && v.scriptData["service"] == Str("anycubic_cloud.print_start")
            && ErrorAlert(Settle(RunScript(v).0, Resolved)).None?
  {
    var empty: map<string, Value> := map[];
    assert empty + DeviceContext(d) == map["config_entry" := Str(d.primaryConfigEntry), "device_id" := Str(d.id)];
  }

  // ---------------------------------------------------------------------------
  // The error over a sequence of events

  datatype Event =
    | DeviceUpdate(device: Option<Device>, changed: set<string>)
    | Edit(value: map<string, Value>)
    | Run
    | Done(outcome: Outcome)

  /** One event: the view after it and the calls it issues. Each event runs
      its own handler, and only a run issues a call. */
  function Transition(v: PrintView, e: Event): (t: (PrintView, seq<ServiceCall>))
    ensures |t.1| == (if e.Run? then 1 else 0)
    ensures t.0.serviceName == v.serviceName
    ensures e.DeviceUpdate? ==> t.0 == WillUpdate(v.(selectedPrinterDevice := e.device), e.changed)
    ensures e.Edit? ==> t.0 == ScriptDataChanged(v, e.value)
    ensures e.Run? ==> t == (RunScript(v).0, [RunScript(v).1])
    ensures e.Done? ==> t.0 == Settle(v, e.outcome)
  {
    match e
    case DeviceUpdate(d, ch) => (WillUpdate(v.(selectedPrinterDevice := d), ch), [])
    case Edit(value) => (ScriptDataChanged(v, value), [])
    case Run => var (next, call) := RunScript(v); (next, [call])
    case Done(o) => (Settle(v, o), [])
  }

  function Step(v: PrintView, e: Event): PrintView {
    Transition(v, e).0
  }

  /** The view after a sequence of events, applied in order. */
  function Replay(v: PrintView, es: seq<Event>): PrintView
    decreases |es|
  {
    if es == [] then v else Step(Replay(v, es[..|es| - 1]), es[|es| - 1])
  }

  /** Reference definition of the error on screen: the message (or absence
      of one) of the last rejection, unless an edit or a run came after it. */
  function LastError(initial: Option<string>, es: seq<Event>): Option<string>
    decreases |es|
  {
    if es == [] then initial
    else
      match es[|es| - 1]
      case Edit(_) => None
      case Run => None
      case Done(Rejected(m)) => m
      case _ => LastError(initial, es[..|es| - 1])
  }

  /** The error shown after any sequence of events is the reference one: an
      error persists until the next edit, run or rejection. */
  lemma {:induction false} ErrorFollowsLastEvent(v: PrintView, es: seq<Event>)
    ensures Replay(v, es).error == LastError(v.error, es)
  {
    if es != [] {
      ErrorFollowsLastEvent(v, es[..|es| - 1]);
    }
  }

  /** A resolve never clears the error: with two runs in flight, a rejection
      of the first stays on screen after the second succeeds, beside a
      successful button. */
  lemma OverlappingRunsKeepEarlierRejection(v: PrintView, m: string)
    ensures var r := Replay(v, [Run, Run, Done(Rejected(Some(m))), Done(Resolved)]);
            ErrorAlert(r) == Some(m) && r.button == ActionSuccess
  {
    var es: seq<Event> := [Run, Run, Done(Rejected(Some(m))), Done(Resolved)];
    assert es[..3] == [Run, Run, Done(Rejected(Some(m)))];
    assert es[..3][..2] == [Run, Run];
    assert es[..3][..2][..1] == [Run];
    assert es[..3][..2][..1][..0] == [];
  }

  /** The calls a sequence of events issues, in order. */
  function Calls(v: PrintView, es: seq<Event>): seq<ServiceCall>
    decreases |es|
  {
    if es == [] then []
    else Calls(v, es[..|es| - 1]) + Transition(Replay(v, es[..|es| - 1]), es[|es| - 1]).1
  }

  function CountRuns(es: seq<Event>): nat
    decreases |es|
  {
    if es == [] then 0 else CountRuns(es[..|es| - 1]) + (if es[|es| - 1].Run? then 1 else 0)
  }

  /** No automatic retry: one call per run and none for anything else; every
      call goes to the view's own service on the integration's domain, and a
      run sends the payload data the view holds at that moment. */
  lemma {:induction false} CallsFollowRuns(v: PrintView, es: seq<Event>)
    ensures Replay(v, es).serviceName == v.serviceName
    ensures |Calls(v, es)| == CountRuns(es)
    ensures forall i :: 0 <= i < |Calls(v, es)| ==>
              Calls(v, es)[i].domain == Platform && Calls(v, es)[i].service == v.serviceName
    ensures es != [] && es[|es| - 1].Run? ==>
              Calls(v, es)[|Calls(v, es)| - 1]
              == ServiceCall(Platform, v.serviceName, PayloadData(Replay(v, es[..|es| - 1]).scriptData))
  {
    if es != [] {
      var front := es[..|es| - 1];
      CallsFollowRuns(v, front);
      var before := Replay(v, front);
      var t := Transition(before, es[|es| - 1]);
      assert Calls(v, es) == Calls(v, front) + t.1;
      if es[|es| - 1].Run? {
        assert t.1 == [RunScript(before).1];
      }
    }
  }
}
