/** The browser session's in-memory store (Inspector/ChromeAPI.js): the
    listeners registered on the DevTools client append requests and parsed
    scripts, record responses by request id, and keep one merged object per
    frame with the history of the frame events it went through. */
module Inspector {
  import opened Values

  /** The URL of the scripts Puppeteer evaluates in the page itself. */
  const EvaluationScriptUrl: string := "__puppeteer_evaluation_script__"

  /** The page-domain frame events a listener is registered for. */
  datatype FrameEventKind =
    | StartedLoading
    | Navigated
    | StoppedLoading
    | Attached
    | Detached
    | Resized
    | RequestedNavigation
    | NavigatedWithinDocument

  /** The tag a frame event appends to its frame's `state` history; the
      same-document navigation listener does nothing. */
  function StateTag(kind: FrameEventKind): string
    requires kind != NavigatedWithinDocument
  {
    match kind
    case StartedLoading => "loading"
    case Navigated => "navigated"
    case StoppedLoading => "stopped"
    case Attached => "attached"
    case Detached => "detached"
    case Resized => "resized"
    case RequestedNavigation => "requestNavigation"
  }

  /** An event the client delivers to one of the session's listeners. */
  datatype Event =
    | RequestWillBeSent(networkObj: Record)
    | ResponseReceived(responseObj: Record)
    | FrameEvent(kind: FrameEventKind, payload: Record)
    | ScriptParsed(scriptObj: Record)

  /** The store as a value: `data.scripts`, `data.network.requests`,
      `data.network.responses`, `data.DOMEvents`, `data.frames` and
      `data.metrics`. */
  datatype SessionData = SessionData(
    scripts: seq<Record>,
    requests: seq<Record>,
    responses: map<string, Value>,
    domEvents: seq<Record>,
    frames: map<string, Record>,
    metrics: Value)

  /** The store of a new session. */
  const Empty := SessionData([], [], map[], [], map[], Null)

  // ---------------------------------------------------------------------
  // Network listeners.

  /** A request payload whose `request` can be read from. */
  predicate RequestShape(networkObj: Record)
  {
    "request" in networkObj && !networkObj["request"].Undefined? && !networkObj["request"].Null?
  }

  /** `{url: networkObj.request.url, ...networkObj}`. */
  function RequestEntry(networkObj: Record): (r: Record)
    requires RequestShape(networkObj)
    ensures r.Keys == networkObj.Keys + {"url"}
    ensures "url" in networkObj ==> r["url"] == networkObj["url"]
    ensures "url" !in networkObj ==> r["url"] == Prop(networkObj["request"], "url")
    ensures forall k :: k in networkObj ==> r[k] == networkObj[k]
  {
    Assign(map["url" := Prop(networkObj["request"], "url")], networkObj)
  }

  /** The key `responses[responseObj.requestId]` writes under. */
  function ResponseKey(responseObj: Record): string
    requires KeyLike(Get(responseObj, "requestId"))
  {
    KeyOf(Get(responseObj, "requestId"))
  }

  /** A parsed script the listener keeps: every one but Puppeteer's own. */
  predicate KeptScript(scriptObj: Record)
  {
    !StrictEquals(Get(scriptObj, "url"), Str(EvaluationScriptUrl))
  }

  // ---------------------------------------------------------------------
  // Frame listeners and `frameEventHandler`.

  /** A frame-navigated payload carries its frame under `frame`. */
  predicate FrameShape(kind: FrameEventKind, payload: Record)
  {
    kind == Navigated ==> "frame" in payload && payload["frame"].Object?
  }

  /** The frame object the listener hands to `frameEventHandler`. */
  function FrameOf(kind: FrameEventKind, payload: Record): Record
    requires FrameShape(kind, payload)
  {
    if kind == Navigated then payload["frame"].fields else payload
  }

  /** `frame.frameId || frame.id`. */
  function FrameIdOf(frame: Record): (v: Value)
    ensures Truthy(Get(frame, "frameId")) ==> v == frame["frameId"]
    ensures !Truthy(Get(frame, "frameId")) ==> v == Get(frame, "id")
  {
    Or(Get(frame, "frameId"), Get(frame, "id"))
  }

  /** A frame the handler can file: its id is a property key, and a `state`
      it brings along is an array if it is truthy (pushing onto anything else
      throws). */
  predicate FramePayload(frame: Record)
  {
    && KeyLike(FrameIdOf(frame))
    && ("state" in frame && Truthy(frame["state"]) ==> frame["state"].Arr?)
  }

  function FrameKey(frame: Record): string
    requires FramePayload(frame)
  {
    KeyOf(FrameIdOf(frame))
  }

  /** Every stored frame has its `state` history array. */
  predicate FramesValid(frames: map<string, Record>)
  {
    forall k :: k in frames ==> "state" in frames[k] && frames[k]["state"].Arr?
  }

  /** The history a frame's new tag is pushed onto: the payload's own truthy
      `state` if it brings one (an empty one if falsy), else the stored
      frame's. */
  function PriorStates(frames: map<string, Record>, frame: Record): seq<Value>
    requires FramePayload(frame) && FramesValid(frames)
  {
    var key := FrameKey(frame);
    if "state" in frame then
      (if Truthy(frame["state"]) then frame["state"].items else [])
    else if key in frames then frames[key]["state"].items
    else []
  }

  /** `frameEventHandler(frame, frames, state)` on the frame table: the
      payload is merged over the frame stored under its id, later fields
      winning, and the tag is appended to its history; no other frame
      changes. */
  function FrameStep(frames: map<string, Record>, frame: Record, tag: string): (r: map<string, Record>)
    requires FramePayload(frame) && FramesValid(frames)
    ensures FramesValid(r)
    ensures r.Keys == frames.Keys + {FrameKey(frame)}
    ensures forall k :: k in frames && k != FrameKey(frame) ==> r[k] == frames[k]
  {
    var key := FrameKey(frame);
    var merged := Assign(if key in frames then frames[key] else map[], frame);
    var history := Or(Get(merged, "state"), Arr([]));
    frames[key := merged["state" := Arr(history.items + [Str(tag)])]]
  }

  /** The frame's history gains the tag at its end. */
  lemma FrameStepHistory(frames: map<string, Record>, frame: Record, tag: string)
    requires FramePayload(frame) && FramesValid(frames)
    ensures FrameStep(frames, frame, tag)[FrameKey(frame)]["state"] == Arr(PriorStates(frames, frame) + [Str(tag)])
  {
  }

  /** Every other field of the frame is the payload's if it has one, else
      the stored frame's: a shallow merge, later fields winning. */
  lemma FrameStepField(frames: map<string, Record>, frame: Record, tag: string, f: string)
    requires FramePayload(frame) && FramesValid(frames) && f != "state"
    ensures var stored := FrameStep(frames, frame, tag)[FrameKey(frame)];
            && (f in stored <==> f in frame || (FrameKey(frame) in frames && f in frames[FrameKey(frame)]))
            && (f in frame ==> stored[f] == frame[f])
            && (f !in frame && FrameKey(frame) in frames && f in frames[FrameKey(frame)] ==> stored[f] == frames[FrameKey(frame)][f])
  {
  }

  // ---------------------------------------------------------------------
  // The store as the events arrive.

  /** An event its listener handles without throwing. */
  predicate Handled(ev: Event)
  {
    match ev
    case RequestWillBeSent(networkObj) => RequestShape(networkObj)
    case ResponseReceived(responseObj) => KeyLike(Get(responseObj, "requestId"))
    case FrameEvent(kind, payload) =>
      kind != NavigatedWithinDocument ==> FrameShape(kind, payload) && FramePayload(FrameOf(kind, payload))
    case ScriptParsed(_) => true
  }

  /** `ev` is a frame event filed under frame id `k`. */
  predicate ForFrame(ev: Event, k: string)
  {
    && ev.FrameEvent? && ev.kind != NavigatedWithinDocument
    && FrameShape(ev.kind, ev.payload) && FramePayload(FrameOf(ev.kind, ev.payload))
    && FrameKey(FrameOf(ev.kind, ev.payload)) == k
  }

  /** `ev` is a response recorded under request id `k`. */
  predicate ForResponse(ev: Event, k: string)
  {
    ev.ResponseReceived? && KeyLike(Get(ev.responseObj, "requestId")) && ResponseKey(ev.responseObj) == k
  }

  /** The store after one listener call. */
  function Step(d: SessionData, ev: Event): SessionData
    requires FramesValid(d.frames) && Handled(ev)
  {
    match ev
    case RequestWillBeSent(networkObj) => d.(requests := d.requests + [RequestEntry(networkObj)])
    case ResponseReceived(responseObj) => d.(responses := d.responses[ResponseKey(responseObj) := Object(responseObj)])
    case FrameEvent(kind, payload) =>
      if kind == NavigatedWithinDocument then d
      else d.(frames := FrameStep(d.frames, FrameOf(kind, payload), StateTag(kind)))
    case ScriptParsed(scriptObj) => if KeptScript(scriptObj) then d.(scripts := d.scripts + [scriptObj]) else d
  }

  /** The store after the events, oldest first. */
  function Replay(d: SessionData, evs: seq<Event>): (r: SessionData)
    requires FramesValid(d.frames) && forall i :: 0 <= i < |evs| ==> Handled(evs[i])
    ensures FramesValid(r.frames)
    ensures r.domEvents == d.domEvents && r.metrics == d.metrics
  {
    if evs == [] then d
    else
      var before := Replay(d, evs[..|evs| - 1]);
      var after := Step(before, evs[|evs| - 1]);
      assert FramesValid(after.frames) by {
        if evs[|evs| - 1].FrameEvent? && evs[|evs| - 1].kind != NavigatedWithinDocument {
          var ev := evs[|evs| - 1];
          assert after.frames == FrameStep(before.frames, FrameOf(ev.kind, ev.payload), StateTag(ev.kind));
        }
      }
      after
  }

  predicate AllHandled(evs: seq<Event>)
  {
    forall i :: 0 <= i < |evs| ==> Handled(evs[i])
  }

  /** The requests the network listener appends for the events, in order. */
  function RequestLog(evs: seq<Event>): (r: seq<Record>)
    requires AllHandled(evs)
    ensures |r| <= |evs|
  {
    if evs == [] then []
    else
      var ev := evs[|evs| - 1];
      RequestLog(evs[..|evs| - 1]) + if ev.RequestWillBeSent? then [RequestEntry(ev.networkObj)] else []
  }

  /** The parsed scripts the listener keeps, in order. */
  function ScriptLog(evs: seq<Event>): (r: seq<Record>)
    ensures forall j :: 0 <= j < |r| ==> KeptScript(r[j])
  {
    if evs == [] then []
    else
      var ev := evs[|evs| - 1];
      ScriptLog(evs[..|evs| - 1]) + if ev.ScriptParsed? && KeptScript(ev.scriptObj) then [ev.scriptObj] else []
  }

  /** The tags the frame events filed under `k` append, in order. */
  function Tags(evs: seq<Event>, k: string): seq<Value>
  {
    if evs == [] then []
    else
      var ev := evs[|evs| - 1];
      Tags(evs[..|evs| - 1], k) + if ForFrame(ev, k) then [Str(StateTag(ev.kind))] else []
  }

  /** The number of frame events filed under `k`. */
  function FrameEventCount(evs: seq<Event>, k: string): nat
  {
    if evs == [] then 0
    else FrameEventCount(evs[..|evs| - 1], k) + if ForFrame(evs[|evs| - 1], k) then 1 else 0
  }

  /** No frame payload brings its own `state`. */
  predicate NoStatePayloads(evs: seq<Event>)
  {
    forall i :: 0 <= i < |evs| && evs[i].FrameEvent? && FrameShape(evs[i].kind, evs[i].payload) ==>
      "state" !in FrameOf(evs[i].kind, evs[i].payload)
  }

  /** The request list only grows: every earlier list is a prefix of a
      later one, and what is appended is the events' requests in arrival
      order. */
  lemma {:induction false} RequestsAppendInOrder(d: SessionData, evs: seq<Event>)
    requires FramesValid(d.frames) && AllHandled(evs)
    ensures Replay(d, evs).requests == d.requests + RequestLog(evs)
  {
    if evs != [] {
      RequestsAppendInOrder(d, evs[..|evs| - 1]);
    }
  }

  lemma {:induction false} RequestsOnlyGrow(d: SessionData, evs: seq<Event>, i: nat)
    requires FramesValid(d.frames) && AllHandled(evs) && i <= |evs|
    ensures Replay(d, evs[..i]).requests <= Replay(d, evs).requests
  {
    if i < |evs| {
      var init := evs[..|evs| - 1];
      assert init[..i] == evs[..i];
      RequestsOnlyGrow(d, init, i);
    } else {
      assert evs[..i] == evs;
    }
  }

  /** Only the network listener's events add requests, one each. */
  lemma {:induction false} RequestCount(evs: seq<Event>)
    requires AllHandled(evs)
    ensures |RequestLog(evs)| == |set i | 0 <= i < |evs| && evs[i].RequestWillBeSent?|
  {
    if evs != [] {
      var init := evs[..|evs| - 1];
      RequestCount(init);
      var before := set i | 0 <= i < |init| && init[i].RequestWillBeSent?;
      var after := set i | 0 <= i < |evs| && evs[i].RequestWillBeSent?;
      if evs[|evs| - 1].RequestWillBeSent? {
        assert after == before + {|evs| - 1};
      } else {
        assert after == before;
      }
    }
  }

  /** The response map after one event. */
  function ResponseUpdate(responses: map<string, Value>, ev: Event): map<string, Value>
    requires Handled(ev)
  {
    if ev.ResponseReceived? then responses[ResponseKey(ev.responseObj) := Object(ev.responseObj)] else responses
  }

  /** The response map after the events. */
  function ResponsesAfter(responses: map<string, Value>, evs: seq<Event>): map<string, Value>
    requires AllHandled(evs)
  {
    if evs == [] then responses
    else ResponseUpdate(ResponsesAfter(responses, evs[..|evs| - 1]), evs[|evs| - 1])
  }

  /** The session's responses are those the response events leave. */
  lemma {:induction false} ReplayResponses(d: SessionData, evs: seq<Event>)
    requires FramesValid(d.frames) && AllHandled(evs)
    ensures Replay(d, evs).responses == ResponsesAfter(d.responses, evs)
  {
    if evs != [] {
      ReplayResponses(d, evs[..|evs| - 1]);
    }
  }

  /** A response is stored under its request id, and the last response for
      an id is the one kept. */
  lemma {:induction false} ResponseLastWins(responses: map<string, Value>, evs: seq<Event>, k: string, i: nat)
    requires AllHandled(evs)
    requires i < |evs| && ForResponse(evs[i], k)
    requires forall j :: i < j < |evs| ==> !ForResponse(evs[j], k)
    ensures k in ResponsesAfter(responses, evs) && ResponsesAfter(responses, evs)[k] == Object(evs[i].responseObj)
  {
    if i < |evs| - 1 {
      ResponseLastWins(responses, evs[..|evs| - 1], k, i);
    }
  }

  /** The ids that have a response are the earlier ones and those of the
      responses received; an id no response names keeps its entry. */
  lemma {:induction false} ResponseKeys(responses: map<string, Value>, evs: seq<Event>, k: string)
    requires AllHandled(evs)
    ensures k in ResponsesAfter(responses, evs) <==> k in responses || exists i :: 0 <= i < |evs| && ForResponse(evs[i], k)
    ensures (forall i :: 0 <= i < |evs| ==> !ForResponse(evs[i], k)) && k in responses ==>
              ResponsesAfter(responses, evs)[k] == responses[k]
  {
    if evs != [] {
      var init := evs[..|evs| - 1];
      ResponseKeys(responses, init, k);
      if exists i :: 0 <= i < |init| && ForResponse(init[i], k) {
        var i :| 0 <= i < |init| && ForResponse(init[i], k);
        assert ForResponse(evs[i], k);
      }
      if exists i :: 0 <= i < |evs| && ForResponse(evs[i], k) {
        var i :| 0 <= i < |evs| && ForResponse(evs[i], k);
        if i < |init| {
          assert ForResponse(init[i], k);
        }
      }
    }
  }

  /** The kept scripts are those parsed, Puppeteer's own dropped, in order. */
  lemma {:induction false} ScriptsKeptInOrder(d: SessionData, evs: seq<Event>)
    requires FramesValid(d.frames) && AllHandled(evs)
    ensures Replay(d, evs).scripts == d.scripts + ScriptLog(evs)
  {
    if evs != [] {
      ScriptsKeptInOrder(d, evs[..|evs| - 1]);
    }
  }

  /** Puppeteer's evaluation scripts never reach the store. */
  lemma NoEvaluationScripts(evs: seq<Event>, j: nat)
    requires AllHandled(evs)
    requires j < |Replay(Empty, evs).scripts|
    ensures !StrictEquals(Get(Replay(Empty, evs).scripts[j], "url"), Str(EvaluationScriptUrl))
  {
    ScriptsKeptInOrder(Empty, evs);
  }

  /** The frame table after one event. */
  function FrameUpdate(frames: map<string, Record>, ev: Event): (r: map<string, Record>)
    requires FramesValid(frames) && Handled(ev)
    ensures FramesValid(r)
  {
    if ev.FrameEvent? && ev.kind != NavigatedWithinDocument then FrameStep(frames, FrameOf(ev.kind, ev.payload), StateTag(ev.kind))
    else frames
  }

  /** The frame table after the events. */
  function FramesAfter(frames: map<string, Record>, evs: seq<Event>): (r: map<string, Record>)
    requires FramesValid(frames) && AllHandled(evs)
    ensures FramesValid(r)
  {
    if evs == [] then frames
    else FrameUpdate(FramesAfter(frames, evs[..|evs| - 1]), evs[|evs| - 1])
  }

  /** The session's frames are those the frame events leave. */
  lemma {:induction false} ReplayFrames(d: SessionData, evs: seq<Event>)
    requires FramesValid(d.frames) && AllHandled(evs)
    ensures Replay(d, evs).frames == FramesAfter(d.frames, evs)
  {
    if evs != [] {
      ReplayFrames(d, evs[..|evs| - 1]);
    }
  }

  /** A frame is in the table exactly when it was before or some frame event
      was filed under its id; one no event names is left as it was. */
  lemma {:induction false} FrameKeys(frames: map<string, Record>, evs: seq<Event>, k: string)
    requires FramesValid(frames) && AllHandled(evs)
    ensures k in FramesAfter(frames, evs) <==> k in frames || FrameEventCount(evs, k) > 0
    ensures FrameEventCount(evs, k) == 0 && k in frames ==> FramesAfter(frames, evs)[k] == frames[k]
  {
    if evs != [] {
      FrameKeys(frames, evs[..|evs| - 1], k);
    }
  }

  /** Each frame event appends exactly one tag to its frame's history,
      duplicates included: with no payload bringing a `state`, the history
      is the earlier one followed by the events' tags in order, one per
      event. */
  lemma FrameHistory(frames: map<string, Record>, evs: seq<Event>, k: string)
    requires FramesValid(frames) && AllHandled(evs) && NoStatePayloads(evs)
    requires k in FramesAfter(frames, evs)
    ensures FramesAfter(frames, evs)[k]["state"] ==
            Arr((if k in frames then frames[k]["state"].items else []) + Tags(evs, k))
    ensures |Tags(evs, k)| == FrameEventCount(evs, k)
  {
    FrameStates(frames, evs, k);
    TagsCount(evs, k);
  }

  lemma {:induction false} FrameStates(frames: map<string, Record>, evs: seq<Event>, k: string)
    requires FramesValid(frames) && AllHandled(evs) && NoStatePayloads(evs)
    requires k in FramesAfter(frames, evs)
    ensures FramesAfter(frames, evs)[k]["state"] ==
            Arr((if k in frames then frames[k]["state"].items else []) + Tags(evs, k))
  {
    if evs != [] {
      var init := evs[..|evs| - 1];
      var ev := evs[|evs| - 1];
      var prior := if k in frames then frames[k]["state"].items else [];
      NoStatePayloadsPrefix(evs);
      var before := FramesAfter(frames, init);
      FrameKeys(frames, init, k);
      if ForFrame(ev, k) {
        var frame := FrameOf(ev.kind, ev.payload);
        var tags := Tags(init, k);
        assert "state" !in frame;
        if k in before {
          FrameStates(frames, init, k);
        } else {
          TagsEmpty(init, k);
        }
        FrameStepAppends(before, frame, StateTag(ev.kind), prior + tags);
        assert Tags(evs, k) == tags + [Str(StateTag(ev.kind))];
      } else {
        FrameStates(frames, init, k);
        assert Tags(evs, k) == Tags(init, k);
      }
    }
  }

  /** A payload without a `state` pushes its tag onto the stored history. */
  lemma FrameStepAppends(frames: map<string, Record>, frame: Record, tag: string, prior: seq<Value>)
    requires FramePayload(frame) && FramesValid(frames) && "state" !in frame
    requires FrameKey(frame) in frames ==> frames[FrameKey(frame)]["state"] == Arr(prior)
    requires FrameKey(frame) !in frames ==> prior == []
    ensures FrameStep(frames, frame, tag)[FrameKey(frame)]["state"] == Arr(prior + [Str(tag)])
  {
    FrameStepHistory(frames, frame, tag);
  }

  lemma NoStatePayloadsPrefix(evs: seq<Event>)
    requires NoStatePayloads(evs) && evs != []
    ensures NoStatePayloads(evs[..|evs| - 1])
  {
    var init := evs[..|evs| - 1];
    forall i | 0 <= i < |init| && init[i].FrameEvent? && FrameShape(init[i].kind, init[i].payload)
      ensures "state" !in FrameOf(init[i].kind, init[i].payload)
    {
      assert init[i] == evs[i];
    }
  }

  lemma {:induction false} TagsCount(evs: seq<Event>, k: string)
    ensures |Tags(evs, k)| == FrameEventCount(evs, k)
  {
    if evs != [] {
      TagsCount(evs[..|evs| - 1], k);
    }
  }

  lemma {:induction false} TagsEmpty(evs: seq<Event>, k: string)
    requires FrameEventCount(evs, k) == 0
    ensures Tags(evs, k) == []
  {
    if evs != [] {
      TagsEmpty(evs[..|evs| - 1], k);
    }
  }

  /** The stored frame is the shallow merge of its payloads: a field other
      than `state` holds the value of the last payload that carried it. */
  lemma {:induction false} FrameFieldLastWins(frames: map<string, Record>, evs: seq<Event>, k: string, f: string, i: nat)
    requires FramesValid(frames) && AllHandled(evs) && f != "state"
    requires i < |evs| && ForFrame(evs[i], k) && f in FrameOf(evs[i].kind, evs[i].payload)
    requires forall j :: i < j < |evs| && ForFrame(evs[j], k) ==> f !in FrameOf(evs[j].kind, evs[j].payload)
    ensures k in FramesAfter(frames, evs) && f in FramesAfter(frames, evs)[k]
    ensures FramesAfter(frames, evs)[k][f] == FrameOf(evs[i].kind, evs[i].payload)[f]
  {
    var init := evs[..|evs| - 1];
    var ev := evs[|evs| - 1];
    var before := FramesAfter(frames, init);
    if i == |evs| - 1 {
      FrameStepField(before, FrameOf(ev.kind, ev.payload), StateTag(ev.kind), f);
    } else {
      assert init[i] == evs[i];
      FrameFieldLastWins(frames, init, k, f, i);
      if ForFrame(ev, k) {
        FrameStepField(before, FrameOf(ev.kind, ev.payload), StateTag(ev.kind), f);
      }
    }
  }

  // ---------------------------------------------------------------------
  // The session object.

  /** `Session`: the options it was created with and the store its
      listeners fill. */
  class Session {
    var opts: Value
    var scripts: seq<Record>
    var requests: seq<Record>
    var responses: map<string, Value>
    var domEvents: seq<Record>
    var frames: map<string, Record>
    var metrics: Value

    /** The store as a value. */
    function Data(): SessionData
      reads this
    {
      SessionData(scripts, requests, responses, domEvents, frames, metrics)
    }

    ghost predicate Valid()
      reads this
    {
      FramesValid(frames)
    }

    /** `new Session(opts)`: an empty store and no metrics yet. */
    constructor (opts: Value)
      ensures this.opts == opts && Data() == Empty && Valid()
    {
      this.opts := opts;
      scripts := [];
      requests := [];
      responses := map[];
      domEvents := [];
      frames := map[];
      metrics := Null;
    }

    /** The `Network.requestWillBeSent` listener. */
    method OnRequestWillBeSent(networkObj: Record)
      requires RequestShape(networkObj)
      modifies this`requests
      ensures requests == old(requests) + [RequestEntry(networkObj)]
    {
      var request := networkObj["request"];
      var entry := map["url" := Prop(request, "url")];
      entry := Assign(entry, networkObj);
      requests := requests + [entry];
    }

    /** The `Network.responseReceived` listener. */
    method OnResponseReceived(responseObj: Record)
      requires KeyLike(Get(responseObj, "requestId"))
      modifies this`responses
      ensures responses == old(responses)[ResponseKey(responseObj) := Object(responseObj)]
    {
      var requestId := KeyOf(Get(responseObj, "requestId"));
      responses := responses[requestId := Object(responseObj)];
    }

    /** The `Debugger.scriptParsed` listener. */
    method OnScriptParsed(scriptObj: Record)
      modifies this`scripts
      ensures scripts == if KeptScript(scriptObj) then old(scripts) + [scriptObj] else old(scripts)
    {
      if StrictEquals(Get(scriptObj, "url"), Str(EvaluationScriptUrl)) {
        return;
      }
      scripts := scripts + [scriptObj];
    }

    /** `frameEventHandler(frame, frames, state)`. */
    method HandleFrameEvent(frame: Record, state: string)
      requires Valid() && FramePayload(frame)
      modifies this`frames
      ensures Valid() && frames == FrameStep(old(frames), frame, state)
    {
      var frameId := Or(Get(frame, "frameId"), Get(frame, "id"));
      var key := KeyOf(frameId);
      var stored := if key in frames then frames[key] else map[];
      stored := Assign(stored, frame);
      ghost var merged := stored;
      var history := Or(Get(stored, "state"), Arr([]));
      stored := stored["state" := history];
      stored := stored["state" := Arr(stored["state"].items + [Str(state)])];
      assert stored == merged["state" := Arr(history.items + [Str(state)])];
      assert key == FrameKey(frame);
      frames := frames[key := stored];
    }

    /** The listeners of `setFramesListener`: each files its frame with its
        tag, the frame-navigated one unwrapping `{frame}` first. */
    method OnFrameEvent(kind: FrameEventKind, payload: Record)
      requires Valid() && Handled(FrameEvent(kind, payload))
      modifies this`frames
      ensures Valid()
      ensures frames == if kind == NavigatedWithinDocument then old(frames)
                        else FrameStep(old(frames), FrameOf(kind, payload), StateTag(kind))
    {
      match kind
      case StartedLoading => HandleFrameEvent(payload, "loading");
      case Navigated => HandleFrameEvent(payload["frame"].fields, "navigated");
      case StoppedLoading => HandleFrameEvent(payload, "stopped");
      case Attached => HandleFrameEvent(payload, "attached");
      case Detached => HandleFrameEvent(payload, "detached");
      case Resized => HandleFrameEvent(payload, "resized");
      case RequestedNavigation => HandleFrameEvent(payload, "requestNavigation");
      case NavigatedWithinDocument =>
    }

    /** The client delivering one event to the listener registered for it. */
    method Deliver(ev: Event)
      requires Valid() && Handled(ev)
      modifies this
      ensures Valid() && Data() == Step(old(Data()), ev) && opts == old(opts)
    {
      match ev
      case RequestWillBeSent(networkObj) => OnRequestWillBeSent(networkObj);
      case ResponseReceived(responseObj) => OnResponseReceived(responseObj);
      case FrameEvent(kind, payload) => OnFrameEvent(kind, payload);
      case ScriptParsed(scriptObj) => OnScriptParsed(scriptObj);
    }
  }
}
