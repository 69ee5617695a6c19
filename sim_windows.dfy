/**
 * The window simulator: four virtual windows, each with an "on"/"off" state
 * and a room name, opened and closed by MQTT commands on
 * `homeassistant/binary_sensor/window_<id>/set`.  The window dictionary is
 * edited in place; what is published is recorded in an outbox.
 */
module SimWindows {
  import opened Common
  import opened Text

  /** The window ids, in the dictionary's order. */
  const WindowIds: seq<string> := ["living_room", "bedroom", "kitchen", "bathroom"]

  datatype WindowEntry = WindowEntry(state: string, room: string)

  const InitialWindows: map<string, WindowEntry> := map[
    "living_room" := WindowEntry("off", "Soggiorno"),
    "bedroom" := WindowEntry("off", "Camera da Letto"),
    "kitchen" := WindowEntry("off", "Cucina"),
    "bathroom" := WindowEntry("off", "Bagno")]

  /** The ids and the dictionary's keys are the same four windows. */
  lemma WindowIdsAreKeys()
    ensures forall k :: 0 <= k < |WindowIds| ==> WindowIds[k] in InitialWindows
    ensures forall id :: id in InitialWindows <==> id in WindowIds
  {
  }

  /** `homeassistant/binary_sensor/window_<id>/<suffix>`. */
  function WindowTopic(id: string, suffix: string): string {
    "homeassistant/binary_sensor/window_" + id + "/" + suffix
  }

  /** The window a command topic addresses, if it is a known one. */
  function AddressedWindow(topic: string): (r: Option<string>)
    ensures r.Some? ==> r.value in InitialWindows
    ensures CountChar(topic, '/') < 2 ==> r.None?
  {
    var parts := Split(topic, '/');
    if |parts| >= 3 && StartsWith(parts[2], "window_") then
      var id := ReplaceAll(parts[2], "window_", "");
      if id in InitialWindows then Some(id) else None
    else None
  }

  /** Every topic the simulator builds for a window is parsed back to that window. */
  lemma WindowTopicAddressesWindow(id: string, suffix: string)
    requires id in InitialWindows
    ensures AddressedWindow(WindowTopic(id, suffix)) == Some(id)
  {
    KnownIdShape(id);
    WindowTopicParts(id, suffix);
    StripWindowPrefix(id);
  }

  lemma KnownIdShape(id: string)
    requires id in InitialWindows
    ensures '/' !in id && 'w' !in id
  {
    assert id == "living_room" || id == "bedroom" || id == "kitchen" || id == "bathroom";
  }

  lemma WindowTopicParts(id: string, suffix: string)
    requires '/' !in id
    ensures |Split(WindowTopic(id, suffix), '/')| >= 3
    ensures Split(WindowTopic(id, suffix), '/')[2] == "window_" + id
  {
    var w := "window_" + id;
    var tail := w + "/" + suffix;
    var rest := "binary_sensor" + ['/'] + tail;
    WindowTopicShape(id, suffix, tail, rest);
    WindowPartHasNoSlash(id);
    SplitAfter(w, '/', suffix);
    SplitAfter("binary_sensor", '/', tail);
    SplitAfter("homeassistant", '/', rest);
    var parts := Split(WindowTopic(id, suffix), '/');
    assert parts == ["homeassistant"] + (["binary_sensor"] + ([w] + Split(suffix, '/')));
  }

  lemma WindowTopicShape(id: string, suffix: string, tail: string, rest: string)
    requires tail == "window_" + id + "/" + suffix
    requires rest == "binary_sensor" + ['/'] + tail
    ensures WindowTopic(id, suffix) == "homeassistant" + ['/'] + rest
  {
    assert "homeassistant/binary_sensor/window_" == "homeassistant" + ['/'] + "binary_sensor" + ['/'] + "window_";
  }

  lemma WindowPartHasNoSlash(id: string)
    requires '/' !in id
    ensures '/' !in "window_" + id
  {
    var w := "window_" + id;
    assert forall k :: 0 <= k < |w| ==> w[k] == if k < 7 then "window_"[k] else id[k - 7];
  }

  lemma StripWindowPrefix(id: string)
    requires 'w' !in id
    ensures ReplaceAll("window_" + id, "window_", "") == id
  {
    var w := "window_" + id;
    NoFirstCharNoMatch(id, "window_");
    assert w[..7] == "window_" && w[7..] == id;
  }

  /** The state a command payload sets, case-insensitively; anything else keeps `current`. */
  function NextState(current: string, payload: string): (r: string)
    ensures Lower(payload) in {"on", "open", "1"} ==> r == "on"
    ensures Lower(payload) in {"off", "close", "closed", "0"} ==> r == "off"
    ensures Lower(payload) !in {"on", "open", "1", "off", "close", "closed", "0"} ==> r == current
  {
    var p := Lower(payload);
    if p in {"on", "open", "1"} then "on"
    else if p in {"off", "close", "closed", "0"} then "off"
    else current
  }

  /** Repeating a command changes nothing more. */
  lemma NextStateIdempotent(current: string, payload: string)
    ensures NextState(NextState(current, payload), payload) == NextState(current, payload)
  {
  }

  lemma NextStateIgnoresCase(current: string, payload: string)
    ensures NextState(current, Upper(payload)) == NextState(current, payload)
  {
    LowerOfUpper(payload);
  }

  /** `json.dumps` of a window's attributes. */
  function AttributesJson(room: string): string {
    "{\"friendly_name\": \"Finestra " + room + "\", \"device_class\": \"window\", \"room\": \"" + room + "\"}"
  }

  /** What `publish_window_state` sends: the state, then the attributes. */
  function StateMessages(id: string, e: WindowEntry): seq<Publish> {
    [PublishText(WindowTopic(id, "state"), e.state), PublishText(WindowTopic(id, "attributes"), AttributesJson(e.room))]
  }

  /** The messages of `publish_all_states` for the windows `ids`, in order. */
  function AllStateMessages(windows: map<string, WindowEntry>, ids: seq<string>): seq<Publish>
    requires forall k :: 0 <= k < |ids| ==> ids[k] in windows
  {
    if ids == [] then []
    else AllStateMessages(windows, ids[..|ids| - 1]) + StateMessages(ids[|ids| - 1], windows[ids[|ids| - 1]])
  }

  /** Window `k`'s state goes out as message `2k` and its attributes as message `2k + 1`. */
  lemma {:induction false} AllStateMessagesAt(windows: map<string, WindowEntry>, ids: seq<string>, k: nat)
    requires forall j :: 0 <= j < |ids| ==> ids[j] in windows
    requires k < |ids|
    ensures |AllStateMessages(windows, ids)| == 2 * |ids|
    ensures AllStateMessages(windows, ids)[2 * k] == PublishText(WindowTopic(ids[k], "state"), windows[ids[k]].state)
    ensures AllStateMessages(windows, ids)[2 * k + 1] == PublishText(WindowTopic(ids[k], "attributes"), AttributesJson(windows[ids[k]].room))
    decreases |ids|
  {
    var init := ids[..|ids| - 1];
    if k < |ids| - 1 {
      AllStateMessagesAt(windows, init, k);
    } else if init != [] {
      AllStateMessagesAt(windows, init, 0);
    } else {
      assert AllStateMessages(windows, init) == [];
    }
  }

  /** One more window appends its two messages. */
  lemma AllStateMessagesExtend(windows: map<string, WindowEntry>, ids: seq<string>, i: nat)
    requires forall j :: 0 <= j < |ids| ==> ids[j] in windows
    requires i < |ids|
    ensures AllStateMessages(windows, ids[..i + 1]) == AllStateMessages(windows, ids[..i]) + StateMessages(ids[i], windows[ids[i]])
  {
    assert ids[..i + 1][..i] == ids[..i];
  }

  /** One Home Assistant discovery record; the `device` block is the same for every window. */
  datatype DiscoveryConfig = DiscoveryConfig(
    topic: string, name: string, uniqueId: string, stateTopic: string, commandTopic: string,
    deviceClass: string, payloadOn: string, payloadOff: string, attributesTopic: string)

  function DiscoveryFor(id: string, room: string): DiscoveryConfig {
    DiscoveryConfig(WindowTopic(id, "config"), "Finestra " + room, "window_sim_" + id,
                    WindowTopic(id, "state"), WindowTopic(id, "set"), "window", "on", "off",
                    WindowTopic(id, "attributes"))
  }

  /** The advertised command topic reaches the window it was advertised for. */
  lemma DiscoveryCommandRoundTrip(id: string, room: string)
    requires id in InitialWindows
    ensures AddressedWindow(DiscoveryFor(id, room).commandTopic) == Some(id)
    ensures DiscoveryFor(id, room).payloadOn == NextState("off", "on")
    ensures DiscoveryFor(id, room).payloadOff == NextState("on", "off")
  {
    WindowTopicAddressesWindow(id, "set");
    LowerOfLowercase("on");
    LowerOfLowercase("off");
  }

  // ---------------------------------------------------------------- the simulator

  class WindowSimulator {
    var windows: map<string, WindowEntry>
    var outbox: seq<Publish>

    /** The same four windows, each keeping its room name. */
    predicate Valid()
      reads this
    {
      windows.Keys == InitialWindows.Keys &&
      forall id :: id in windows ==> windows[id].room == InitialWindows[id].room
    }

    constructor()
      ensures windows == InitialWindows && outbox == []
      ensures Valid()
    {
      windows := InitialWindows;
      outbox := [];
    }

    /** `on_message`: an accepted command updates its window's state and republishes it. */
    method OnMessage(topic: string, payload: string)
      requires Valid()
      modifies this
      ensures Valid()
      ensures AddressedWindow(topic).None? ==> windows == old(windows) && outbox == old(outbox)
      ensures AddressedWindow(topic).Some? ==>
        var id := AddressedWindow(topic).value;
        var e := old(windows)[id].(state := NextState(old(windows)[id].state, payload));
        windows == old(windows)[id := e] && outbox == old(outbox) + StateMessages(id, e)
    {
      var parts := Split(topic, '/');
      if |parts| >= 3 {
        var windowPart := parts[2];
        if StartsWith(windowPart, "window_") {
          var id := ReplaceAll(windowPart, "window_", "");
          if id in windows {
            var p := Lower(payload);
            if p in {"on", "open", "1"} {
              windows := windows[id := windows[id].(state := "on")];
            } else if p in {"off", "close", "closed", "0"} {
              windows := windows[id := windows[id].(state := "off")];
            }
            PublishWindowState(id);
          }
        }
      }
    }

    /** `publish_window_state`. */
    method PublishWindowState(id: string)
      requires id in windows
      modifies this
      ensures windows == old(windows)
      ensures outbox == old(outbox) + StateMessages(id, windows[id])
    {
      var e := windows[id];
      outbox := outbox + [PublishText(WindowTopic(id, "state"), e.state)];
      outbox := outbox + [PublishText(WindowTopic(id, "attributes"), AttributesJson(e.room))];
    }

    /** `publish_all_states`: every window, in the dictionary's order. */
    method PublishAllStates()
      requires Valid()
      modifies this
      ensures windows == old(windows)
      ensures outbox == old(outbox) + AllStateMessages(windows, WindowIds)
    {
      WindowIdsAreKeys();
      PublishStates(WindowIds);
    }

    /** The loop of `publish_all_states`, over the windows `ids`. */
    method PublishStates(ids: seq<string>)
      requires forall k :: 0 <= k < |ids| ==> ids[k] in windows
      modifies this
      ensures windows == old(windows)
      ensures outbox == old(outbox) + AllStateMessages(windows, ids)
    {
      var i := 0;
      while i < |ids|
        invariant 0 <= i <= |ids|
        invariant windows == old(windows)
        invariant outbox == old(outbox) + AllStateMessages(windows, ids[..i])
      {
        AllStateMessagesExtend(windows, ids, i);
        PublishWindowState(ids[i]);
        assert outbox == old(outbox) + (AllStateMessages(windows, ids[..i]) + StateMessages(ids[i], windows[ids[i]]));
        i := i + 1;
      }
      assert ids[..i] == ids;
    }

    /** `publish_discovery_configs`: one discovery record per window, in order. */
    method DiscoveryConfigs() returns (configs: seq<DiscoveryConfig>)
      requires Valid()
      ensures |configs| == |WindowIds|
      ensures forall k :: 0 <= k < |WindowIds| ==>
        configs[k] == DiscoveryFor(WindowIds[k], InitialWindows[WindowIds[k]].room)
    {
      WindowIdsAreKeys();
      configs := [];
      var i := 0;
      while i < |WindowIds|
        invariant 0 <= i <= |WindowIds|
        invariant |configs| == i
        invariant forall k :: 0 <= k < i ==> configs[k] == DiscoveryFor(WindowIds[k], InitialWindows[WindowIds[k]].room)
      {
        var id := WindowIds[i];
        configs := configs + [DiscoveryFor(id, windows[id].room)];
        i := i + 1;
      }
    }
  }
}
