/** Device requests from external applications and the device selection dialog's properties
    (react/features/device-selection/functions.js). The media-device library's answers are
    inputs; the promise of `getAvailableDevices` is modelled by its resolved device list. */
module DeviceSelection {
  import opened Wire

  const AUDIO_INPUT := "audioinput"
  const AUDIO_OUTPUT := "audiooutput"
  const VIDEO_INPUT := "videoinput"

  /** An enumerated media device. */
  datatype Device = Device(deviceId: string, kind: string, deviceLabel: string)

  /** The `features/base/settings` fields read here; each may be missing. */
  datatype Settings = Settings(
    micDeviceId: JsValue,
    cameraDeviceId: JsValue,
    userSelectedMicDeviceId: JsValue,
    userSelectedAudioOutputDeviceId: JsValue,
    userSelectedCameraDeviceId: JsValue)

  /** The answers of the media-device library and of the devices feature. */
  datatype MediaQueries = MediaQueries(
    isDeviceListAvailable: bool,                     // mediaDevices.isDeviceListAvailable()
    isDeviceChangeAvailable: JsValue -> bool,        // mediaDevices.isDeviceChangeAvailable(deviceType)
    isMultipleAudioInputSupported: bool,             // JitsiMeetJS.isMultipleAudioInputSupported()
    mediaDevicesMultipleAudioInputSupported: bool,   // mediaDevices.isMultipleAudioInputSupported()
    isCollectingLocalStats: bool,                    // JitsiMeetJS.isCollectingLocalStats()
    labelsInitialized: bool,                         // areDeviceLabelsInitialized(state)
    audioOutputDeviceId: JsValue,                    // getAudioOutputDeviceId()
    deviceIdByLabel: (JsValue, JsValue) -> JsValue)  // getDeviceIdByLabel(state, label, kind)

  datatype DialogProps = DialogProps(
    availableDevices: seq<Device>,
    disableAudioInputChange: bool,
    disableDeviceChange: bool,
    hideAudioInputPreview: bool,
    hideAudioOutputSelect: bool,
    selectedAudioInputId: JsValue,
    selectedAudioOutputId: JsValue,
    selectedVideoInputId: JsValue)

  /** `getDeviceSelectionDialogProps`: `inConference` is whether the conference state holds
      a conference, `availableDevices` the stored list, passed through. */
  function GetDeviceSelectionDialogProps(inConference: bool, settings: Settings, q: MediaQueries,
                                         availableDevices: seq<Device>): (p: DialogProps)
    // switching microphones is only restricted inside a conference
    ensures !inConference ==> !p.disableAudioInputChange
    ensures inConference ==> p.disableAudioInputChange == !q.mediaDevicesMultipleAudioInputSupported
    // the device in use wins over the one the user picked, when there is one
    ensures Truthy(settings.micDeviceId) ==> p.selectedAudioInputId == settings.micDeviceId
    ensures !Truthy(settings.micDeviceId) ==> p.selectedAudioInputId == settings.userSelectedMicDeviceId
    ensures Truthy(q.audioOutputDeviceId) ==> p.selectedAudioOutputId == q.audioOutputDeviceId
    ensures !Truthy(q.audioOutputDeviceId) ==> p.selectedAudioOutputId == settings.userSelectedAudioOutputDeviceId
    ensures Truthy(settings.cameraDeviceId) ==> p.selectedVideoInputId == settings.cameraDeviceId
    ensures !Truthy(settings.cameraDeviceId) ==> p.selectedVideoInputId == settings.userSelectedCameraDeviceId
    ensures p.disableDeviceChange == !q.isDeviceChangeAvailable(JUndefined)
    ensures p.hideAudioInputPreview == !q.isCollectingLocalStats
    ensures p.hideAudioOutputSelect == !q.isDeviceChangeAvailable(JStr("output"))
    ensures p.availableDevices == availableDevices
  {
    var disableAudioInputChange := !q.mediaDevicesMultipleAudioInputSupported;
    var disableAudioInputChange' := if !inConference then false else disableAudioInputChange;
    DialogProps(
      availableDevices,
      disableAudioInputChange',
      !q.isDeviceChangeAvailable(JUndefined),
      !q.isCollectingLocalStats,
      !q.isDeviceChangeAvailable(JStr("output")),
      Or(settings.micDeviceId, settings.userSelectedMicDeviceId),
      Or(q.audioOutputDeviceId, settings.userSelectedAudioOutputDeviceId),
      Or(settings.cameraDeviceId, settings.userSelectedCameraDeviceId))
  }

  /** The `device` object of a `setDevice` request. */
  datatype DeviceSpec = DeviceSpec(deviceLabel: JsValue, id: JsValue, kind: JsValue)

  /** A request from an external application; `device` is None when the request has none. */
  datatype Request = Request(requestType: JsValue, name: JsValue, deviceType: JsValue, device: Option<DeviceSpec>)

  /** The three slots of a `getCurrentDevices` response. */
  datatype DeviceDescriptions = DeviceDescriptions(audioInput: Option<Device>, audioOutput: Option<Device>, videoInput: Option<Device>)

  datatype Response =
    | BoolResponse(b: bool)
    | CurrentDevicesResponse(descriptions: DeviceDescriptions)
    | GroupedDevicesResponse(devices: seq<Device>)   // groupDevicesByKind(devices)

  /** A request parked until the device labels or the conference are there; `callback`
      identifies the request's response callback. */
  datatype PendingRequest = PendingRequest(name: string, device: Option<DeviceSpec>, callback: nat)

  /** What processing a request does, in order. */
  datatype DeviceEffect =
    | Respond(response: Response)                  // responseCallback(...)
    | RefreshAvailableDevices                      // dispatch(getAvailableDevices())
    | AddPendingDeviceRequest(request: PendingRequest)
    | SetAudioInputDevice(deviceId: JsValue)
    | SetAudioOutputDeviceId(deviceId: JsValue)
    | SetVideoInputDevice(deviceId: JsValue)

  /** The value returned, or the TypeError of destructuring a missing `device`. */
  datatype Outcome = Returned(processed: bool) | ThrewTypeError

  /** The ids of the devices in use: the audio output, the microphone and the camera. */
  function CurrentlyUsedDeviceIds(settings: Settings, q: MediaQueries): set<JsValue> {
    {q.audioOutputDeviceId, settings.micDeviceId, settings.cameraDeviceId}
  }

  predicate Matches(d: Device, used: set<JsValue>, kind: string) {
    JStr(d.deviceId) in used && d.kind == kind
  }

  /** The slot of `kind` after the `forEach`: the last device of that kind in use. */
  function LastMatch(devices: seq<Device>, used: set<JsValue>, kind: string): (slot: Option<Device>)
    ensures slot.Some? ==> slot.value in devices && Matches(slot.value, used, kind)
  {
    if devices == [] then None
    else if Matches(devices[|devices| - 1], used, kind) then Some(devices[|devices| - 1])
    else LastMatch(devices[..|devices| - 1], used, kind)
  }

  /** A slot holds a device in use of the slot's kind that no later device in the list
      replaces, and is empty exactly when the list has no device in use of that kind. */
  ghost predicate IsLastMatch(slot: Option<Device>, devices: seq<Device>, used: set<JsValue>, kind: string) {
    match slot
    case None => forall i :: 0 <= i < |devices| ==> !Matches(devices[i], used, kind)
    case Some(d) =>
      exists i :: 0 <= i < |devices| && devices[i] == d && Matches(d, used, kind) &&
        forall j :: i < j < |devices| ==> !Matches(devices[j], used, kind)
  }

  lemma {:induction false} LastMatchIsLast(devices: seq<Device>, used: set<JsValue>, kind: string)
    ensures IsLastMatch(LastMatch(devices, used, kind), devices, used, kind)
  {
    if devices != [] {
      var n := |devices| - 1;
      if Matches(devices[n], used, kind) {
        assert devices[n] == LastMatch(devices, used, kind).value;
      } else {
        var prefix := devices[..n];
        LastMatchIsLast(prefix, used, kind);
        match LastMatch(prefix, used, kind) {
          case None =>
            assert forall i :: 0 <= i < n ==> devices[i] == prefix[i];
          case Some(d) =>
            var i :| 0 <= i < n && prefix[i] == d && Matches(d, used, kind) &&
              forall j :: i < j < n ==> !Matches(prefix[j], used, kind);
            assert devices[i] == d;
            assert forall j :: i < j < |devices| ==> !Matches(devices[j], used, kind) by {
              forall j | i < j < |devices|
                ensures !Matches(devices[j], used, kind)
              {
                if j < n { assert devices[j] == prefix[j]; }
              }
            }
        }
      }
    }
  }

  /** The `forEach` of `getCurrentDevices`: every device in use overwrites the slot of its kind. */
  method CurrentDeviceDescriptions(devices: seq<Device>, used: set<JsValue>) returns (d: DeviceDescriptions)
    ensures d == DeviceDescriptions(LastMatch(devices, used, AUDIO_INPUT),
                                    LastMatch(devices, used, AUDIO_OUTPUT),
                                    LastMatch(devices, used, VIDEO_INPUT))
  {
    d := DeviceDescriptions(None, None, None);
    var i := 0;
    while i < |devices|
      invariant 0 <= i <= |devices|
      invariant d == DeviceDescriptions(LastMatch(devices[..i], used, AUDIO_INPUT),
                                        LastMatch(devices[..i], used, AUDIO_OUTPUT),
                                        LastMatch(devices[..i], used, VIDEO_INPUT))
    {
      var device := devices[i];
      assert devices[..i + 1][..i] == devices[..i];
      if JStr(device.deviceId) in used {
        if device.kind == AUDIO_INPUT {
          d := d.(audioInput := Some(device));
        } else if device.kind == AUDIO_OUTPUT {
          d := d.(audioOutput := Some(device));
        } else if device.kind == VIDEO_INPUT {
          d := d.(videoInput := Some(device));
        }
      }
      i := i + 1;
    }
    assert devices[..i] == devices;
  }

  predicate IsKnownRequestName(name: JsValue) {
    name in {JStr("isDeviceListAvailable"), JStr("isDeviceChangeAvailable"), JStr("isMultipleAudioInputSupported"),
             JStr("getCurrentDevices"), JStr("getAvailableDevices"), JStr("setDevice")}
  }

  /** The id a `setDevice` request names: looked up by label when it has one. */
  function ResolveDeviceId(device: DeviceSpec, q: MediaQueries): JsValue {
    if Truthy(device.deviceLabel) then q.deviceIdByLabel(device.deviceLabel, device.kind) else device.id
  }

  predicate IsKnownKind(kind: JsValue) {
    kind in {JStr(AUDIO_INPUT), JStr(AUDIO_OUTPUT), JStr(VIDEO_INPUT)}
  }

  /** `processExternalDeviceRequest`; `callback` identifies `responseCallback`. */
  method ProcessExternalDeviceRequest(inConference: bool, settings: Settings, q: MediaQueries,
                                      devices: seq<Device>, request: Request, callback: nat)
    returns (outcome: Outcome, effects: seq<DeviceEffect>)
    // requests of another type, and unknown names, are not processed and do nothing
    ensures request.requestType != JStr("devices") ==> outcome == Returned(false) && effects == []
    ensures !IsKnownRequestName(request.name) ==> outcome == Returned(false) && effects == []
    ensures request.requestType == JStr("devices") && IsKnownRequestName(request.name) ==>
      outcome == Returned(true) ||
      (outcome == ThrewTypeError && request.name == JStr("setDevice") && inConference && request.device.None?)
    // in a conference, destructuring a missing `device` throws before anything is done
    ensures request.requestType == JStr("devices") && request.name == JStr("setDevice") && inConference && request.device.None? ==>
      outcome == ThrewTypeError && effects == []
    ensures request.requestType == JStr("devices") ==> (
      && (request.name == JStr("isDeviceListAvailable") ==>
            effects == [Respond(BoolResponse(q.isDeviceListAvailable))])
      && (request.name == JStr("isDeviceChangeAvailable") ==>
            effects == [Respond(BoolResponse(q.isDeviceChangeAvailable(request.deviceType)))])
      && (request.name == JStr("isMultipleAudioInputSupported") ==>
            effects == [Respond(BoolResponse(q.isMultipleAudioInputSupported))])
      // without labels, the two listing requests are parked under their own name
      && (request.name == JStr("getCurrentDevices") && !q.labelsInitialized ==>
            effects == [RefreshAvailableDevices, AddPendingDeviceRequest(PendingRequest("getCurrentDevices", None, callback))])
      && (request.name == JStr("getAvailableDevices") && !q.labelsInitialized ==>
            effects == [RefreshAvailableDevices, AddPendingDeviceRequest(PendingRequest("getAvailableDevices", None, callback))])
      && (request.name == JStr("getAvailableDevices") && q.labelsInitialized ==>
            effects == [RefreshAvailableDevices, Respond(GroupedDevicesResponse(devices))])
      // outside a conference a device change is parked and nothing is changed
      && (request.name == JStr("setDevice") && !inConference ==>
            effects == [AddPendingDeviceRequest(PendingRequest("setDevice", request.device, callback))]))
    // with labels, each slot holds the last device in use of its kind
    ensures request.requestType == JStr("devices") && request.name == JStr("getCurrentDevices") && q.labelsInitialized ==>
      |effects| == 2 && effects[0] == RefreshAvailableDevices &&
      effects[1].Respond? && effects[1].response.CurrentDevicesResponse? &&
      var slots := effects[1].response.descriptions;
      var used := CurrentlyUsedDeviceIds(settings, q);
      IsLastMatch(slots.audioInput, devices, used, AUDIO_INPUT) &&
      IsLastMatch(slots.audioOutput, devices, used, AUDIO_OUTPUT) &&
      IsLastMatch(slots.videoInput, devices, used, VIDEO_INPUT)
    // in a conference, the id is resolved, the device of its kind set, and the result reported
    ensures request.requestType == JStr("devices") && request.name == JStr("setDevice") && inConference && request.device.Some? ==>
      var device := request.device.value;
      var deviceId := ResolveDeviceId(device, q);
      var ok := Truthy(deviceId) && IsKnownKind(device.kind);
      effects == (if !ok then [] else if device.kind == JStr(AUDIO_INPUT) then [SetAudioInputDevice(deviceId)]
                  else if device.kind == JStr(AUDIO_OUTPUT) then [SetAudioOutputDeviceId(deviceId)]
                  else [SetVideoInputDevice(deviceId)]) + [Respond(BoolResponse(ok))]
  {
    effects := [];
    if request.requestType != JStr("devices") {
      return Returned(false), effects;
    }
    var result := true;
    var name := request.name;
    if name == JStr("isDeviceListAvailable") {
      effects := effects + [Respond(BoolResponse(q.isDeviceListAvailable))];
    } else if name == JStr("isDeviceChangeAvailable") {
      effects := effects + [Respond(BoolResponse(q.isDeviceChangeAvailable(request.deviceType)))];
    } else if name == JStr("isMultipleAudioInputSupported") {
      effects := effects + [Respond(BoolResponse(q.isMultipleAudioInputSupported))];
    } else if name == JStr("getCurrentDevices") {
      effects := effects + [RefreshAvailableDevices];
      if q.labelsInitialized {
        var used := CurrentlyUsedDeviceIds(settings, q);
        var deviceDescriptions := CurrentDeviceDescriptions(devices, used);
        LastMatchIsLast(devices, used, AUDIO_INPUT);
        LastMatchIsLast(devices, used, AUDIO_OUTPUT);
        LastMatchIsLast(devices, used, VIDEO_INPUT);
        effects := effects + [Respond(CurrentDevicesResponse(deviceDescriptions))];
      } else {
        effects := effects + [AddPendingDeviceRequest(PendingRequest("getCurrentDevices", None, callback))];
      }
    } else if name == JStr("getAvailableDevices") {
      effects := effects + [RefreshAvailableDevices];
      if q.labelsInitialized {
        effects := effects + [Respond(GroupedDevicesResponse(devices))];
      } else {
        effects := effects + [AddPendingDeviceRequest(PendingRequest("getAvailableDevices", None, callback))];
      }
    } else if name == JStr("setDevice") {
      if !inConference {
        effects := effects + [AddPendingDeviceRequest(PendingRequest("setDevice", request.device, callback))];
        return Returned(true), effects;
      }
      match request.device {
        case None =>
          return ThrewTypeError, effects;
        case Some(device) =>
          var deviceId := ResolveDeviceId(device, q);
          if Truthy(deviceId) && IsKnownKind(device.kind) {
            if device.kind == JStr(AUDIO_INPUT) {
              effects := effects + [SetAudioInputDevice(deviceId)];
            } else if device.kind == JStr(AUDIO_OUTPUT) {
              effects := effects + [SetAudioOutputDeviceId(deviceId)];
            } else {
              effects := effects + [SetVideoInputDevice(deviceId)];
            }
          } else {
            result := false;
          }
          effects := effects + [Respond(BoolResponse(result))];
      }
    } else {
      return Returned(false), effects;
    }
    outcome := Returned(true);
  }
}
