/** The post-processing of a scan (src/dataProcessor.js): the data the
    collectors gathered is normalised in place (frame URLs, request frame
    URLs, script events and coverage, style coverage, metrics) and the
    sections the caller asked for are copied into a report that goes
    through a JSON round trip. This module holds the specification of each
    step as functions on values, with their properties; the `Store` class in
    module `Processing` performs the steps in place. */
module DataProcessor {
  import opened Strings
  import opened Values
  import opened Coverage

  /** A performance metric as `Performance.getMetrics` reports it. */
  datatype Metric = Metric(name: string, value: Value)

  /** A used byte range of a style sheet, as CSS rule-usage tracking reports it. */
  datatype StyleRange = StyleRange(styleSheetId: string, startOffset: int, endOffset: int)

  /** The three `TypeError`s post-processing can raise: a script whose frame
      is unknown (`frame.url` on `undefined`), script coverage asked for but
      never collected (`.sort` on a missing list), and metadata without
      metrics (`.length` on a missing list). */
  datatype Failure = MissingFrame | MissingScriptCoverage | MissingMetrics

  /** What `processData` does: returns nothing, throws, or returns a report. */
  datatype Outcome = NoResult | Threw(failure: Failure) | Report(fields: Record)

  datatype Result<T> = Ok(value: T) | Err(failure: Failure)

  const AboutBlank := "about:blank"
  const Inline := "inline"
  const OtherBucket := "other"

  /** The collected data object, one component per property `processData` reads. */
  datatype Data = Data(
    frames: map<string, Record>,
    resourcesTree: map<string, Value>,
    requests: seq<Record>,
    scripts: map<string, Record>,
    domEvents: Option<seq<Record>>,
    styles: map<string, Record>,
    styleCoverage: Option<seq<StyleRange>>,
    scriptCoverage: Option<seq<ScriptCoverage>>,
    metadata: Option<Record>,
    metrics: Option<seq<Metric>>,
    dataURI: Value,
    storage: Value,
    serviceWorker: Value,
    cookies: Value,
    logs: Value,
    console: Value,
    errors: Value,
    resources: Value)

  // ---------------------------------------------------------------------
  // The shape of the collected data, as the browser protocol delivers it.

  predicate RequestsKeyed(rs: seq<Record>)
  {
    forall i :: 0 <= i < |rs| ==> KeyLike(Get(rs[i], "frameId"))
  }

  predicate ScriptsKeyed(scripts: map<string, Record>)
  {
    forall k :: k in scripts ==> KeyLike(Get(scripts[k], "frameId"))
  }

  /** No script has an `events` list yet. */
  predicate NoEvents(scripts: map<string, Record>)
  {
    forall k :: k in scripts ==> "events" !in scripts[k]
  }

  /** Every `events` list present is an array. */
  predicate EventSlots(scripts: map<string, Record>)
  {
    forall k :: k in scripts ==> "events" in scripts[k] ==> scripts[k]["events"].Arr?
  }

  predicate EventsKeyed(evs: seq<Record>)
  {
    forall i :: 0 <= i < |evs| ==> KeyLike(Get(evs[i], "scriptId"))
  }

  /** No style sheet has a `coverage` object yet. */
  predicate NoStyleCoverage(styles: map<string, Record>)
  {
    forall k :: k in styles ==> "coverage" !in styles[k]
  }

  predicate CoverageShaped(cov: seq<ScriptCoverage>)
  {
    forall e :: e in cov ==> HasRanges(e.functions)
  }

  predicate Shaped(d: Data)
  {
    && RequestsKeyed(d.requests)
    && ScriptsKeyed(d.scripts)
    && NoEvents(d.scripts)
    && (d.domEvents.Some? ==> EventsKeyed(d.domEvents.value))
    && NoStyleCoverage(d.styles)
    && (d.scriptCoverage.Some? ==> CoverageShaped(d.scriptCoverage.value))
  }

  /** `sorted` is the engine's reordering of the collected script coverage. */
  predicate Reorders(sorted: seq<ScriptCoverage>, d: Data)
  {
    d.scriptCoverage.Some? ==> multiset(sorted) == multiset(d.scriptCoverage.value)
  }

  // ---------------------------------------------------------------------
  // Frames (processFrames) and the resource tree merge.

  /** `frame.url = frame.url || 'about:blank'`. */
  function WithDefaultUrl(frame: Record): (r: Record)
    ensures Truthy(Get(r, "url"))
    ensures "url" in r && r == frame["url" := r["url"]]
    ensures Truthy(Get(frame, "url")) ==> r == frame
    ensures !Truthy(Get(frame, "url")) ==> r["url"] == Str(AboutBlank)
  {
    frame["url" := Or(Get(frame, "url"), Str(AboutBlank))]
  }

  function DefaultUrls(frames: map<string, Record>): (r: map<string, Record>)
    ensures r.Keys == frames.Keys
  {
    map k | k in frames :: WithDefaultUrl(frames[k])
  }

  /** Every frame ends with a truthy URL; a frame that had one keeps it. */
  lemma DefaultUrlsGiveUrls(frames: map<string, Record>, k: string)
    requires k in frames
    ensures Truthy(Get(DefaultUrls(frames)[k], "url"))
    ensures Truthy(Get(frames[k], "url")) ==> DefaultUrls(frames)[k] == frames[k]
    ensures !Truthy(Get(frames[k], "url")) ==> Get(DefaultUrls(frames)[k], "url") == Str(AboutBlank)
  {
  }

  /** Running the frame step twice is the same as running it once. */
  lemma DefaultUrlsIdempotent(frames: map<string, Record>)
    ensures DefaultUrls(DefaultUrls(frames)) == DefaultUrls(frames)
  {
    var once := DefaultUrls(frames);
    forall k | k in once ensures WithDefaultUrl(once[k]) == once[k] {
    }
  }

  function Lookup(m: map<string, Record>, k: string): Record
  {
    if k in m then m[k] else map[]
  }

  /** `frames[id] = {...frames[id], ...resourcesTree[id]}` for every id of the tree. */
  function WithTree(frames: map<string, Record>, tree: map<string, Value>): (r: map<string, Record>)
    ensures r.Keys == frames.Keys + tree.Keys
  {
    map k | k in frames.Keys + tree.Keys :: if k in tree then TreeEntry(frames, tree, k) else frames[k]
  }

  function TreeEntry(frames: map<string, Record>, tree: map<string, Value>, k: string): Record
    requires k in tree
  {
    Assign(Lookup(frames, k), Spread(tree[k]))
  }

  /** A tree entry's properties override the frame's, the frame's other
      properties stay, and frames outside the tree are untouched. */
  lemma WithTreeOverrides(frames: map<string, Record>, tree: map<string, Value>, k: string, f: string)
    requires k in frames.Keys + tree.Keys
    ensures k in tree && tree[k].Object? && f in tree[k].fields ==> f in WithTree(frames, tree)[k] && WithTree(frames, tree)[k][f] == tree[k].fields[f]
    ensures k in frames && f in frames[k] && (k !in tree || (tree[k].Object? && f !in tree[k].fields)) ==> f in WithTree(frames, tree)[k] && WithTree(frames, tree)[k][f] == frames[k][f]
    ensures k !in tree ==> WithTree(frames, tree)[k] == frames[k]
  {
  }

  /** A frame that only the resource tree knows need not have a URL: the
      URL default runs before the merge. */
  lemma TreeOnlyFrameMayLackUrl()
    ensures var r := WithTree(DefaultUrls(map[]), map["f" := Object(map[])]);
            "f" in r && !Truthy(Get(r["f"], "url"))
  {
    var r := WithTree(DefaultUrls(map[]), map["f" := Object(map[])]);
    assert r["f"] == Assign(map[], Spread(Object(map[])));
  }

  // ---------------------------------------------------------------------
  // Requests (processNetwork, processRequests).

  function FrameKey(v: Value): string
    requires KeyLike(v)
  {
    KeyOf(v)
  }

  /** `request.frameURL = (frames[request.frameId] || {}).url`. */
  function WithFrameUrl(frames: map<string, Record>, request: Record): (r: Record)
    requires KeyLike(Get(request, "frameId"))
    ensures "frameURL" in r && r == request["frameURL" := r["frameURL"]]
  {
    var key := FrameKey(Get(request, "frameId"));
    request["frameURL" := if key in frames then Get(frames[key], "url") else Undefined]
  }

  function WithFrameUrls(frames: map<string, Record>, rs: seq<Record>): (r: seq<Record>)
    requires RequestsKeyed(rs)
    ensures |r| == |rs|
    ensures RequestsKeyed(r)
  {
    var r := seq(|rs|, i requires 0 <= i < |rs| => WithFrameUrl(frames, rs[i]));
    assert forall i :: 0 <= i < |r| ==> Get(r[i], "frameId") == Get(rs[i], "frameId");
    r
  }

  /** After the frame step, a request's `frameURL` is truthy exactly when its
      frame is known, and then it is that frame's URL; the JSON round trip
      drops the key of a request whose frame is unknown. */
  lemma FrameUrlKnownIffFrame(frames: map<string, Record>, rs: seq<Record>, i: nat)
    requires RequestsKeyed(rs) && i < |rs|
    ensures var r := WithFrameUrls(DefaultUrls(frames), rs)[i];
            var key := FrameKey(Get(rs[i], "frameId"));
            && (Truthy(r["frameURL"]) <==> key in frames)
            && (key in frames ==> r["frameURL"] == DefaultUrls(frames)[key]["url"])
            && ("frameURL" in Json(Object(r)).fields <==> key in frames)
  {
    var key := FrameKey(Get(rs[i], "frameId"));
    if key in frames {
      DefaultUrlsGiveUrls(frames, key);
    }
  }

  /** `req.requestId = requestId`: each request is stamped with its index key. */
  function Stamped(rs: seq<Record>): (r: seq<Record>)
    ensures |r| == |rs|
  {
    seq(|rs|, i requires 0 <= i < |rs| => rs[i]["requestId" := Str(IndexKey(i))])
  }

  /** Stamping changes nothing but `requestId`. */
  lemma StampedKeepsFields(rs: seq<Record>, i: nat, f: string)
    requires i < |rs| && f != "requestId"
    ensures (f in Stamped(rs)[i] <==> f in rs[i]) && Get(Stamped(rs)[i], f) == Get(rs[i], f)
  {
  }

  /** The stamped id reads back as the request's position. */
  lemma StampedIdIsPosition(rs: seq<Record>, i: nat)
    requires i < |rs|
    ensures Get(Stamped(rs)[i], "requestId").Str?
    ensures ParseDigits(Get(Stamped(rs)[i], "requestId").s) == i
  {
    ParseNatToString(i);
  }

  /** The bucket of a request: the origin of its URL, or `other` when the
      URL constructor throws. `originOf` stands for `new URL(v).origin`. */
  function BucketOf(originOf: Value -> Option<string>, request: Record): string
  {
    match originOf(Get(request, "url"))
    case Some(origin) => origin
    case None => OtherBucket
  }

  function Bucket(g: map<string, seq<nat>>, b: string): seq<nat>
  {
    if b in g then g[b] else []
  }

  /** The grouping `processRequests` builds (and then drops): the positions
      of the requests in each bucket, in order. */
  function GroupByOrigin(originOf: Value -> Option<string>, rs: seq<Record>): map<string, seq<nat>>
  {
    if rs == [] then map[]
    else
      var g := GroupByOrigin(originOf, rs[..|rs| - 1]);
      var b := BucketOf(originOf, rs[|rs| - 1]);
      g[b := Bucket(g, b) + [|rs| - 1]]
  }

  predicate Increasing(s: seq<nat>)
  {
    forall i, j :: 0 <= i < j < |s| ==> s[i] < s[j]
  }

  /** A bucket holds, in increasing order, only positions of requests of its origin. */
  lemma {:induction false} GroupByOriginSound(originOf: Value -> Option<string>, rs: seq<Record>)
    ensures forall b, j :: b in GroupByOrigin(originOf, rs) && j in GroupByOrigin(originOf, rs)[b] ==> j < |rs|
    ensures forall b, j :: b in GroupByOrigin(originOf, rs) && j in GroupByOrigin(originOf, rs)[b] ==> BucketOf(originOf, rs[j]) == b
    ensures forall b :: b in GroupByOrigin(originOf, rs) ==> Increasing(GroupByOrigin(originOf, rs)[b])
  {
    if rs != [] {
      var n := |rs| - 1;
      var init := rs[..n];
      GroupByOriginSound(originOf, init);
      var g0 := GroupByOrigin(originOf, init);
      var b := BucketOf(originOf, rs[n]);
      var g := GroupByOrigin(originOf, rs);
      assert g == g0[b := Bucket(g0, b) + [n]];
      forall c, j | c in g && j in g[c] ensures j < |rs| && BucketOf(originOf, rs[j]) == c {
        if c != b || j != n {
          assert c in g0 && j in g0[c];
          assert rs[j] == init[j];
        }
      }
      if b in g0 {
        assert forall j :: j in g0[b] ==> j < n;
      }
      IncreasingAppend(Bucket(g0, b), n);
    } else {
      assert GroupByOrigin(originOf, rs) == map[];
    }
  }

  lemma IncreasingAppend(s: seq<nat>, x: nat)
    requires Increasing(s) && forall y :: y in s ==> y < x
    ensures Increasing(s + [x])
  {
    assert forall i :: 0 <= i < |s| ==> s[i] in s;
  }

  /** Every request lies in the bucket of its origin. */
  lemma {:induction false} GroupByOriginComplete(originOf: Value -> Option<string>, rs: seq<Record>)
    ensures forall i :: 0 <= i < |rs| ==> BucketOf(originOf, rs[i]) in GroupByOrigin(originOf, rs) && i in GroupByOrigin(originOf, rs)[BucketOf(originOf, rs[i])]
  {
    if rs != [] {
      var n := |rs| - 1;
      var init := rs[..n];
      GroupByOriginComplete(originOf, init);
      var g := GroupByOrigin(originOf, rs);
      forall i | 0 <= i < |rs| ensures BucketOf(originOf, rs[i]) in g && i in g[BucketOf(originOf, rs[i])] {
        if i < n {
          assert rs[i] == init[i];
        }
      }
    }
  }

  /** The grouping is a partition of the positions: every request lies in the
      bucket of its origin and in no other, exactly once. */
  lemma GroupByOriginPartitions(originOf: Value -> Option<string>, rs: seq<Record>, i: nat)
    requires i < |rs|
    ensures var g := GroupByOrigin(originOf, rs);
            && BucketOf(originOf, rs[i]) in g
            && multiset(g[BucketOf(originOf, rs[i])])[i] == 1
            && forall b :: b in g && b != BucketOf(originOf, rs[i]) ==> i !in g[b]
  {
    GroupByOriginSound(originOf, rs);
    GroupByOriginComplete(originOf, rs);
    var g := GroupByOrigin(originOf, rs);
    IncreasingOnce(g[BucketOf(originOf, rs[i])], i);
  }

  lemma {:induction false} IncreasingOnce(s: seq<nat>, x: nat)
    requires Increasing(s) && x in s
    ensures multiset(s)[x] == 1
  {
    var k := |s| - 1;
    assert s == s[..k] + [s[k]];
    assert Increasing(s[..k]);
    if s[k] == x {
      assert x !in s[..k];
    } else {
      IncreasingOnce(s[..k], x);
    }
  }

  // ---------------------------------------------------------------------
  // Scripts (processScripts): coverage, DOM events, frame URL and parent.

  /** The `functionCoverage` object written for a script of the given length. */
  function CoverageObject(s: Summary, length: Value): Value
  {
    Object(map[
      "usedBytes" := Num(s.usedBytes as real),
      "usage" := Divide(s.usedBytes as real, length),
      "usedFunctions" := Arr(Strs(s.usedFunctions)),
      "unusedFunctions" := Arr(Strs(s.unusedFunctions))])
  }

  function Strs(names: seq<string>): (r: seq<Value>)
    ensures |r| == |names| && forall i :: 0 <= i < |names| ==> r[i] == Str(names[i])
  {
    seq(|names|, i requires 0 <= i < |names| => Str(names[i]))
  }

  /** An entry the coverage loop acts on: not the evaluation script, and of a known script. */
  predicate Applies(scripts: map<string, Record>, e: ScriptCoverage)
  {
    e.url != EvaluationScriptUrl && e.scriptId in scripts
  }

  /** The scripts after the coverage loop has seen `es`, in order. */
  function ApplyCoverage(scripts: map<string, Record>, es: seq<ScriptCoverage>): (r: map<string, Record>)
    requires CoverageShaped(es)
    ensures r.Keys == scripts.Keys
  {
    if es == [] then scripts
    else
      var s := ApplyCoverage(scripts, es[..|es| - 1]);
      var e := es[|es| - 1];
      if Applies(s, e) then
        var script := s[e.scriptId];
        s[e.scriptId := script["functionCoverage" := CoverageObject(Summarize(e.functions), Get(script, "length"))]]
      else s
  }

  /** The last applicable entry for a script decides its coverage, computed
      against the script's own `length`. */
  lemma {:induction false} ApplyCoverageLastWins(scripts: map<string, Record>, es: seq<ScriptCoverage>, i: nat)
    requires CoverageShaped(es)
    requires i < |es| && Applies(scripts, es[i])
    requires forall j :: i < j < |es| ==> es[j].scriptId != es[i].scriptId || es[j].url == EvaluationScriptUrl
    ensures var id := es[i].scriptId;
            ApplyCoverage(scripts, es)[id] == scripts[id]["functionCoverage" := CoverageObject(Summarize(es[i].functions), Get(scripts[id], "length"))]
  {
    var init := es[..|es| - 1];
    if i == |es| - 1 {
      ApplyCoverageAtLast(scripts, es);
    } else {
      assert init[i] == es[i];
      ApplyCoverageLastWins(scripts, init, i);
      assert ApplyCoverage(scripts, es)[es[i].scriptId] == ApplyCoverage(scripts, init)[es[i].scriptId];
    }
  }

  lemma ApplyCoverageAtLast(scripts: map<string, Record>, es: seq<ScriptCoverage>)
    requires CoverageShaped(es) && es != [] && Applies(scripts, es[|es| - 1])
    ensures var e := es[|es| - 1];
            ApplyCoverage(scripts, es)[e.scriptId] == scripts[e.scriptId]["functionCoverage" := CoverageObject(Summarize(e.functions), Get(scripts[e.scriptId], "length"))]
  {
    var e := es[|es| - 1];
    var id := e.scriptId;
    var init := es[..|es| - 1];
    var s := ApplyCoverage(scripts, init);
    var v := CoverageObject(Summarize(e.functions), Get(scripts[id], "length"));
    forall f | f != "functionCoverage" ensures (f in s[id] <==> f in scripts[id]) && Get(s[id], f) == Get(scripts[id], f) {
      ApplyCoverageKeepsFields(scripts, init, id, f);
    }
    OverwriteAgrees(s[id], scripts[id], "functionCoverage", v);
  }

  /** Two records that agree outside key `k` agree once `k` is overwritten. */
  lemma OverwriteAgrees(a: Record, b: Record, k: string, v: Value)
    requires forall f :: f != k ==> (f in a <==> f in b) && Get(a, f) == Get(b, f)
    ensures a[k := v] == b[k := v]
  {
  }

  /** A script no applicable entry names keeps its record unchanged. */
  lemma {:induction false} ApplyCoverageUntouched(scripts: map<string, Record>, es: seq<ScriptCoverage>, id: string)
    requires CoverageShaped(es) && id in scripts
    requires forall j :: 0 <= j < |es| ==> es[j].scriptId != id || es[j].url == EvaluationScriptUrl
    ensures ApplyCoverage(scripts, es)[id] == scripts[id]
  {
    if es != [] {
      ApplyCoverageUntouched(scripts, es[..|es| - 1], id);
    }
  }

  /** `delete eventObj.scriptId`. */
  function Stripped(ev: Record): Record
  {
    ev - {"scriptId"}
  }

  function EventScript(ev: Record): string
    requires KeyLike(Get(ev, "scriptId"))
  {
    KeyOf(Get(ev, "scriptId"))
  }

  function EventsOf(script: Record): seq<Value>
    requires "events" in script ==> script["events"].Arr?
  {
    if "events" in script then script["events"].items else []
  }

  /** The scripts after the DOM-event loop has seen `evs`: an event whose
      script is known loses its `scriptId` and joins the script's `events`. */
  function AttachEvents(scripts: map<string, Record>, evs: seq<Record>): (r: map<string, Record>)
    requires EventsKeyed(evs) && EventSlots(scripts)
    ensures r.Keys == scripts.Keys && EventSlots(r)
  {
    if evs == [] then scripts
    else
      var s := AttachEvents(scripts, evs[..|evs| - 1]);
      var ev := evs[|evs| - 1];
      var id := EventScript(ev);
      if id in s then s[id := s[id]["events" := Arr(EventsOf(s[id]) + [Object(Stripped(ev))])]]
      else s
  }

  /** The events of `evs` that belong to script `id`, without their `scriptId`. */
  function EventsFor(evs: seq<Record>, id: string): seq<Value>
    requires EventsKeyed(evs)
  {
    if evs == [] then []
    else
      var ev := evs[|evs| - 1];
      EventsFor(evs[..|evs| - 1], id) + if EventScript(ev) == id then [Object(Stripped(ev))] else []
  }

  /** Each script collects exactly its own events, in order; a script no
      event names is left as it was. */
  lemma {:induction false} AttachEventsCollects(scripts: map<string, Record>, evs: seq<Record>, id: string)
    requires EventsKeyed(evs) && NoEvents(scripts) && id in scripts
    ensures EventSlots(scripts)
    ensures EventsOf(AttachEvents(scripts, evs)[id]) == EventsFor(evs, id)
    ensures AttachEvents(scripts, evs)[id] == if EventsFor(evs, id) == [] then scripts[id] else scripts[id]["events" := Arr(EventsFor(evs, id))]
  {
    if evs != [] {
      AttachEventsCollects(scripts, evs[..|evs| - 1], id);
    }
  }

  function StripOne(scripts: map<string, Record>, ev: Record): Record
    requires KeyLike(Get(ev, "scriptId"))
  {
    if EventScript(ev) in scripts then Stripped(ev) else ev
  }

  /** The DOM events after the loop: those of known scripts lost their `scriptId`. */
  function StripIds(scripts: map<string, Record>, evs: seq<Record>): (r: seq<Record>)
    requires EventsKeyed(evs)
    ensures |r| == |evs|
    ensures forall i :: 0 <= i < |evs| ==> ("scriptId" in r[i] <==> "scriptId" in evs[i] && EventScript(evs[i]) !in scripts)
  {
    seq(|evs|, i requires 0 <= i < |evs| => StripOne(scripts, evs[i]))
  }

  /** Which events lose their `scriptId` depends only on which scripts exist. */
  lemma StripIdsByKeys(a: map<string, Record>, b: map<string, Record>, evs: seq<Record>)
    requires EventsKeyed(evs) && a.Keys == b.Keys
    ensures StripIds(a, evs) == StripIds(b, evs)
  {
  }

  /** `v[i]` on a truthy value. */
  function Element(v: Value, i: nat): Value
  {
    match v
    case Arr(items) => if i < |items| then items[i] else Undefined
    case Str(s) => if i < |s| then Str([s[i]]) else Undefined
    case Object(f) => Get(f, IndexKey(i))
    case _ => Undefined
  }

  /** `stackTrace.callFrames && stackTrace.callFrames[0]`. */
  function ParentScript(stackTrace: Value): (r: Value)
    requires Truthy(stackTrace)
    ensures var callFrames := Prop(stackTrace, "callFrames");
            (!Truthy(callFrames) ==> r == callFrames) && (callFrames.Arr? && |callFrames.items| > 0 ==> r == callFrames.items[0])
  {
    var callFrames := Prop(stackTrace, "callFrames");
    if Truthy(callFrames) then Element(callFrames, 0) else callFrames
  }

  /** The last loop of `processScripts` for one script and its frame. */
  function FinishScript(script: Record, frame: Record): (r: Record)
    ensures Get(r, "frameURL") == Get(frame, "url")
    ensures StrictEquals(Get(frame, "url"), Get(script, "url")) ==> Get(r, "url") == Str(Inline)
    ensures !StrictEquals(Get(frame, "url"), Get(script, "url")) ==> Get(r, "url") == Get(script, "url")
    ensures Truthy(Get(script, "stackTrace")) ==> Get(r, "parentScript") == ParentScript(Get(script, "stackTrace"))
    ensures !Truthy(Get(script, "stackTrace")) ==> Get(r, "parentScript") == Get(script, "parentScript")
    ensures forall f :: f in script && f != "frameURL" && f != "url" && f != "parentScript" ==> f in r && r[f] == script[f]
  {
    var withFrame := script["frameURL" := Get(frame, "url")];
    var named := if StrictEquals(Get(withFrame, "frameURL"), Get(withFrame, "url")) then withFrame["url" := Str(Inline)] else withFrame;
    if Truthy(Get(script, "stackTrace")) then named["parentScript" := ParentScript(Get(script, "stackTrace"))] else named
  }

  predicate FramesKnown(scripts: map<string, Record>, frames: map<string, Record>)
    requires ScriptsKeyed(scripts)
  {
    forall k :: k in scripts ==> FrameKey(Get(scripts[k], "frameId")) in frames
  }

  function FinishScripts(scripts: map<string, Record>, frames: map<string, Record>): (r: map<string, Record>)
    requires ScriptsKeyed(scripts) && FramesKnown(scripts, frames)
    ensures r.Keys == scripts.Keys
  {
    map k | k in scripts :: FinishScript(scripts[k], frames[FrameKey(Get(scripts[k], "frameId"))])
  }

  /** A script with no URL in a frame with no URL is reported as inline. */
  lemma UrlLessScriptInUrlLessFrameIsInline(script: Record, frame: Record)
    requires "url" !in script && "url" !in frame
    ensures Get(FinishScript(script, frame), "url") == Str(Inline)
    ensures "frameURL" !in Json(Object(FinishScript(script, frame))).fields
  {
  }

  lemma ApplyCoverageKeeps(scripts: map<string, Record>, es: seq<ScriptCoverage>)
    requires CoverageShaped(es) && ScriptsKeyed(scripts) && NoEvents(scripts)
    ensures ScriptsKeyed(ApplyCoverage(scripts, es)) && NoEvents(ApplyCoverage(scripts, es))
  {
    var r := ApplyCoverage(scripts, es);
    forall k | k in r ensures KeyLike(Get(r[k], "frameId")) && "events" !in r[k] {
      ApplyCoverageKeepsFields(scripts, es, k, "frameId");
      ApplyCoverageKeepsFields(scripts, es, k, "events");
    }
  }

  /** The coverage loop changes nothing but `functionCoverage`. */
  lemma {:induction false} ApplyCoverageKeepsFields(scripts: map<string, Record>, es: seq<ScriptCoverage>, k: string, f: string)
    requires CoverageShaped(es) && k in scripts && f != "functionCoverage"
    ensures (f in ApplyCoverage(scripts, es)[k] <==> f in scripts[k]) && Get(ApplyCoverage(scripts, es)[k], f) == Get(scripts[k], f)
  {
    if es != [] {
      ApplyCoverageKeepsFields(scripts, es[..|es| - 1], k, f);
    }
  }

  /** The DOM-event loop changes nothing but `events`. */
  lemma {:induction false} AttachEventsKeepsFields(scripts: map<string, Record>, evs: seq<Record>, k: string, f: string)
    requires EventsKeyed(evs) && EventSlots(scripts) && k in scripts && f != "events"
    ensures (f in AttachEvents(scripts, evs)[k] <==> f in scripts[k]) && Get(AttachEvents(scripts, evs)[k], f) == Get(scripts[k], f)
  {
    if evs != [] {
      AttachEventsKeepsFields(scripts, evs[..|evs| - 1], k, f);
    }
  }

  lemma AttachEventsKeeps(scripts: map<string, Record>, evs: seq<Record>)
    requires EventsKeyed(evs) && EventSlots(scripts) && ScriptsKeyed(scripts)
    ensures ScriptsKeyed(AttachEvents(scripts, evs))
  {
    var r := AttachEvents(scripts, evs);
    forall k | k in r ensures KeyLike(Get(r[k], "frameId")) {
      AttachEventsKeepsFields(scripts, evs, k, "frameId");
    }
  }

  /** The scripts after `processScripts`, or the failure it throws;
      `collected` says whether script coverage was collected at all. */
  function ScriptsStep(scripts: map<string, Record>, domEvents: Option<seq<Record>>, collected: bool,
                       frames: map<string, Record>, withCoverage: bool, sorted: seq<ScriptCoverage>): Result<map<string, Record>>
    requires ScriptsKeyed(scripts) && NoEvents(scripts)
    requires domEvents.Some? ==> EventsKeyed(domEvents.value)
    requires collected ==> CoverageShaped(sorted)
  {
    if |scripts| == 0 then Ok(scripts)
    else if withCoverage && !collected then Err(MissingScriptCoverage)
    else
      var covered := if withCoverage then ApplyCoverage(scripts, sorted) else scripts;
      assert ScriptsKeyed(covered) && NoEvents(covered) by {
        if withCoverage {
          ApplyCoverageKeeps(scripts, sorted);
        }
      }
      var withEvents := if domEvents.Some? then AttachEvents(covered, domEvents.value) else covered;
      AttachEventsKeeps(covered, if domEvents.Some? then domEvents.value else []);
      if FramesKnown(withEvents, frames) then Ok(FinishScripts(withEvents, frames)) else Err(MissingFrame)
  }

  /** The engine's reordering of well-shaped coverage is well shaped. */
  lemma ReorderedShaped(d: Data, sorted: seq<ScriptCoverage>)
    requires Shaped(d) && Reorders(sorted, d) && d.scriptCoverage.Some?
    ensures CoverageShaped(sorted)
  {
    forall e | e in sorted ensures HasRanges(e.functions) {
      assert e in multiset(sorted);
      assert e in d.scriptCoverage.value;
    }
  }

  // ---------------------------------------------------------------------
  // Style coverage (processStyleCoverage).

  /** The sum of `endOffset - startOffset` over the ranges of sheet `id`. */
  function StyleBytes(cov: seq<StyleRange>, id: string): int
  {
    if cov == [] then 0
    else
      var c := cov[|cov| - 1];
      StyleBytes(cov[..|cov| - 1], id) + if c.styleSheetId == id then c.endOffset - c.startOffset else 0
  }

  predicate Touches(cov: seq<StyleRange>, id: string)
  {
    exists i :: 0 <= i < |cov| && cov[i].styleSheetId == id
  }

  /** The sheets after the first loop: a sheet with ranges has its byte sum. */
  function UsedBytesPass(styles: map<string, Record>, cov: seq<StyleRange>): (r: map<string, Record>)
    ensures r.Keys == styles.Keys
  {
    map k | k in styles ::
      if Touches(cov, k) then styles[k]["coverage" := Object(map["usedBytes" := Num(StyleBytes(cov, k) as real)])]
      else styles[k]
  }

  /** The sheets after both loops: a sheet with ranges has its byte sum and
      the sum divided by the sheet's `length`; other sheets are untouched. */
  function StyleUsage(styles: map<string, Record>, cov: seq<StyleRange>): (r: map<string, Record>)
    ensures r.Keys == styles.Keys
  {
    map k | k in styles ::
      if Touches(cov, k) then
        var bytes := StyleBytes(cov, k) as real;
        styles[k]["coverage" := Object(map["usedBytes" := Num(bytes), "usage" := Divide(bytes, Get(styles[k], "length"))])]
      else styles[k]
  }

  function RangesOf(cov: Option<seq<StyleRange>>): seq<StyleRange>
  {
    if cov.Some? then cov.value else []
  }

  /** Dropping one range from the list takes its length off its sheet's sum. */
  lemma {:induction false} StyleBytesRemove(cov: seq<StyleRange>, i: nat, id: string)
    requires i < |cov|
    ensures StyleBytes(cov, id) == StyleBytes(cov[..i] + cov[i + 1..], id) + if cov[i].styleSheetId == id then cov[i].endOffset - cov[i].startOffset else 0
  {
    var n := |cov|;
    var init := cov[..n - 1];
    if i == n - 1 {
      assert cov[..i] + cov[i + 1..] == init;
    } else {
      StyleBytesRemove(init, i, id);
      var rest := cov[..i] + cov[i + 1..];
      var last := cov[n - 1];
      var lastBytes := if last.styleSheetId == id then last.endOffset - last.startOffset else 0;
      assert rest[..|rest| - 1] == init[..i] + init[i + 1..];
      assert rest[|rest| - 1] == last;
      assert StyleBytes(rest, id) == StyleBytes(init[..i] + init[i + 1..], id) + lastBytes;
      assert StyleBytes(cov, id) == StyleBytes(init, id) + lastBytes;
    }
  }

  /** Unlike script coverage, a sheet's byte sum does not depend on the order
      of the ranges. */
  lemma {:induction false} StyleBytesOrderFree(a: seq<StyleRange>, b: seq<StyleRange>, id: string)
    requires multiset(a) == multiset(b)
    ensures StyleBytes(a, id) == StyleBytes(b, id)
    decreases |a|
  {
    if a != [] {
      var x := a[|a| - 1];
      assert x in multiset(b);
      var i :| 0 <= i < |b| && b[i] == x;
      var a' := a[..|a| - 1];
      var b' := b[..i] + b[i + 1..];
      assert a == a' + [x];
      assert b == b[..i] + [x] + b[i + 1..];
      assert multiset(a) == multiset(a') + multiset{x};
      assert multiset(b) == multiset(b[..i]) + multiset{x} + multiset(b[i + 1..]);
      assert multiset(b') == multiset(b[..i]) + multiset(b[i + 1..]);
      assert multiset(a') == multiset(a) - multiset{x};
      assert multiset(b') == multiset(b) - multiset{x};
      StyleBytesOrderFree(a', b', id);
      StyleBytesRemove(b, i, id);
    } else {
      assert |b| == |multiset(b)| == 0;
    }
  }

  /** Overlapping ranges are summed, not merged: the usage of a sheet can
      exceed one. */
  lemma OverlappingStyleRangesCountTwice()
    ensures var styles := map["s" := map["length" := Num(15.0)]];
            var cov := [StyleRange("s", 0, 10), StyleRange("s", 5, 15)];
            Get(StyleUsage(styles, cov)["s"], "coverage") == Object(map["usedBytes" := Num(20.0), "usage" := Num(20.0 / 15.0)])
  {
    var cov := [StyleRange("s", 0, 10), StyleRange("s", 5, 15)];
    assert cov[..1] == [StyleRange("s", 0, 10)];
    assert StyleBytes(cov, "s") == 20;
    assert Touches(cov, "s") by {
      assert cov[0].styleSheetId == "s";
    }
  }

  // ---------------------------------------------------------------------
  // Metrics (processMetrics).

  /** `metrics[metric.name] = metric.value` for each metric in order. */
  function MetricsOf(ms: seq<Metric>): (r: Record)
    ensures forall n :: n in r <==> exists i :: 0 <= i < |ms| && ms[i].name == n
  {
    if ms == [] then map[]
    else
      var r := MetricsOf(ms[..|ms| - 1]);
      r[ms[|ms| - 1].name := ms[|ms| - 1].value]
  }

  /** The last metric of a name gives its value. */
  lemma {:induction false} MetricsLastWins(ms: seq<Metric>, i: nat)
    requires i < |ms|
    requires forall j :: i < j < |ms| ==> ms[j].name != ms[i].name
    ensures ms[i].name in MetricsOf(ms) && MetricsOf(ms)[ms[i].name] == ms[i].value
  {
    if i < |ms| - 1 {
      assert ms[..|ms| - 1][i] == ms[i];
      MetricsLastWins(ms[..|ms| - 1], i);
    }
  }

  // ---------------------------------------------------------------------
  // The report (processData).


  /** `collect[name]` is truthy. */
  predicate Flag(collect: Value, name: string)
    requires Truthy(collect)
  {
    Truthy(Prop(collect, name))
  }

  function Records(m: map<string, Record>): Value
  {
    Object(map k | k in m :: Object(m[k]))
  }

  /** The sections copied as they are, each under the flag of its own name. */
  const PassThroughKeys: set<string> := {"dataURI", "storage", "serviceWorker", "cookies", "logs", "console", "errors", "resources"}

  function PassValue(d: Data, k: string): Value
  {
    match k
    case "dataURI" => d.dataURI
    case "storage" => d.storage
    case "serviceWorker" => d.serviceWorker
    case "cookies" => d.cookies
    case "logs" => d.logs
    case "console" => d.console
    case "errors" => d.errors
    case _ => d.resources
  }

  /** `if (collect.k) responseData.k = v` for one pass-through section. */
  function CopySection(collect: Value, report: Record, k: string, v: Value): Record
    requires Truthy(collect)
  {
    if Flag(collect, k) then report[k := v] else report
  }

  /** The pass-through sections, in the order `processData` copies them. */
  function PassThrough(d: Data, collect: Value, report: Record): Record
    requires Truthy(collect)
  {
    var r1 := CopySection(collect, report, "dataURI", d.dataURI);
    var r2 := CopySection(collect, r1, "storage", d.storage);
    var r3 := CopySection(collect, r2, "serviceWorker", d.serviceWorker);
    var r4 := CopySection(collect, r3, "cookies", d.cookies);
    var r5 := CopySection(collect, r4, "logs", d.logs);
    var r6 := CopySection(collect, r5, "console", d.console);
    var r7 := CopySection(collect, r6, "errors", d.errors);
    var r8 := CopySection(collect, r7, "storage", d.storage);
    CopySection(collect, r8, "resources", d.resources)
  }

  /** The metadata object with its `metrics` filled in. */
  function WithMetrics(metadata: Record, ms: seq<Metric>): Record
  {
    metadata["metrics" := Object(MetricsOf(ms))]
  }

  /** `responseData` just before the JSON round trip. */
  function ResponseData(d: Data, collect: Value, frames: map<string, Record>, scripts: map<string, Record>): Record
    requires Truthy(collect)
    requires d.metadata.Some? ==> d.metrics.Some?
  {
    PassThrough(d, collect, RequestsStage(d, collect, frames, scripts))
  }

  /** The frames as they stand when the report is taken. */
  function ReportFrames(d: Data, collect: Value): map<string, Record>
    requires Truthy(collect)
  {
    if Flag(collect, "frames") then WithTree(DefaultUrls(d.frames), d.resourcesTree) else DefaultUrls(d.frames)
  }

  /** The scripts as reported, or the failure `processScripts` throws;
      the collected scripts as they are when they are not asked for. */
  function ScriptsOf(d: Data, collect: Value, frames: map<string, Record>, sorted: seq<ScriptCoverage>): Result<map<string, Record>>
    requires Shaped(d) && Reorders(sorted, d) && Truthy(collect)
  {
    assert d.scriptCoverage.Some? ==> CoverageShaped(sorted) by {
      if d.scriptCoverage.Some? {
        ReorderedShaped(d, sorted);
      }
    }
    if Flag(collect, "scripts") then ScriptsStep(d.scripts, d.domEvents, d.scriptCoverage.Some?, frames, Flag(collect, "scriptCoverage"), sorted)
    else Ok(d.scripts)
  }

  /** `responseData` before the pass-through sections, or the failure
      thrown on the way there, section by section in the order
      `processData` builds them. */
  function StageOf(d: Data, collect: Value, sorted: seq<ScriptCoverage>): Result<Record>
    requires Shaped(d) && Reorders(sorted, d) && Truthy(collect)
  {
    var frames := ReportFrames(d, collect);
    var r1 := CopySection(collect, map[], "frames", Records(frames));
    var scripts := ScriptsOf(d, collect, frames, sorted);
    if scripts.Err? then Err(scripts.failure)
    else StageTail(collect, d.styles, d.styleCoverage, d.metadata, d.metrics, CopySection(collect, r1, "scripts", Records(scripts.value)))
  }

  /** The sections after the scripts: style sheets, metadata, requests. */
  function StageTail(collect: Value, styles: map<string, Record>, styleCoverage: Option<seq<StyleRange>>,
                     metadata: Option<Record>, metrics: Option<seq<Metric>>, report: Record): Result<Record>
    requires Truthy(collect)
  {
    StageEnd(collect, metadata, metrics, StylesSection(collect, styles, RangesOf(styleCoverage), report))
  }

  /** The metadata and requests sections. */
  function StageEnd(collect: Value, metadata: Option<Record>, metrics: Option<seq<Metric>>, report: Record): Result<Record>
    requires Truthy(collect)
  {
    if metadata.Some? && metrics.None? then Err(MissingMetrics)
    else Ok(CopySection(collect, MetadataSection(metadata, metrics, report), "requests", Undefined))
  }

  /** What `processData(data, context)` returns or throws. */
  function Expected(d: Data, context: Value, sorted: seq<ScriptCoverage>): Outcome
    requires Shaped(d) && Reorders(sorted, d)
  {
    if !Truthy(context) then NoResult else Collected(d, PropOr(context, "collect"), sorted)
  }

  /** What `processData` returns or throws once it has its `collect` flags. */
  function Collected(d: Data, collect: Value, sorted: seq<ScriptCoverage>): Outcome
    requires Shaped(d) && Reorders(sorted, d) && Truthy(collect)
  {
    var stage := StageOf(d, collect, sorted);
    if stage.Err? then Threw(stage.failure)
    else Report(Json(Object(PassThrough(d, collect, stage.value))).fields)
  }

  /** A report is the JSON round trip of the built sections and the
      pass-through sections, for the frames and scripts as processed. */
  lemma ExpectedReport(d: Data, context: Value, sorted: seq<ScriptCoverage>)
    requires Shaped(d) && Reorders(sorted, d) && Truthy(context)
    requires Expected(d, context, sorted).Report?
    ensures ScriptsOf(d, PropOr(context, "collect"), ReportFrames(d, PropOr(context, "collect")), sorted).Ok?
    ensures !(d.metadata.Some? && d.metrics.None?)
    ensures Expected(d, context, sorted).fields ==
              ReportOf(d, PropOr(context, "collect"), ReportFrames(d, PropOr(context, "collect")), ScriptsOf(d, PropOr(context, "collect"), ReportFrames(d, PropOr(context, "collect")), sorted).value)
  {
  }

  /** The report keys that a flag of `collect` controls, with their flags. */
  function FlagOf(k: string): string
  {
    if k == "styleSheets" then "styles" else k
  }

  const SectionKeys: set<string> := {"frames", "scripts", "styleSheets", "metadata", "requests"} + PassThroughKeys

  lemma PassThroughSections(d: Data, collect: Value, report: Record, k: string)
    requires Truthy(collect)
    ensures k in PassThroughKeys ==> (k in PassThrough(d, collect, report) <==> k in report || Flag(collect, k))
    ensures k in PassThroughKeys && Flag(collect, k) ==> PassThrough(d, collect, report)[k] == PassValue(d, k)
    ensures k !in PassThroughKeys ==> (k in PassThrough(d, collect, report) <==> k in report)
    ensures k !in PassThroughKeys && k in report ==> PassThrough(d, collect, report)[k] == report[k]
  {
    var r1 := CopySection(collect, report, "dataURI", d.dataURI);
    var r2 := CopySection(collect, r1, "storage", d.storage);
    var r3 := CopySection(collect, r2, "serviceWorker", d.serviceWorker);
    var r4 := CopySection(collect, r3, "cookies", d.cookies);
    var r5 := CopySection(collect, r4, "logs", d.logs);
    var r6 := CopySection(collect, r5, "console", d.console);
    var r7 := CopySection(collect, r6, "errors", d.errors);
    var r8 := CopySection(collect, r7, "storage", d.storage);
    CopySectionAt(collect, report, "dataURI", d.dataURI, k);
    CopySectionAt(collect, r1, "storage", d.storage, k);
    CopySectionAt(collect, r2, "serviceWorker", d.serviceWorker, k);
    CopySectionAt(collect, r3, "cookies", d.cookies, k);
    CopySectionAt(collect, r4, "logs", d.logs, k);
    CopySectionAt(collect, r5, "console", d.console, k);
    CopySectionAt(collect, r6, "errors", d.errors, k);
    CopySectionAt(collect, r7, "storage", d.storage, k);
    CopySectionAt(collect, r8, "resources", d.resources, k);
  }

  /** One section seen from any key `j`. */
  lemma CopySectionAt(collect: Value, report: Record, k: string, v: Value, j: string)
    requires Truthy(collect)
    ensures j in CopySection(collect, report, k, v) <==> j in report || (j == k && Flag(collect, k))
    ensures j == k && Flag(collect, k) ==> CopySection(collect, report, k, v)[j] == v
    ensures j in report && !(j == k && Flag(collect, k)) ==> CopySection(collect, report, k, v)[j] == report[j]
  {
  }

  /** The report: `responseData` after the JSON round trip. */
  function ReportOf(d: Data, collect: Value, frames: map<string, Record>, scripts: map<string, Record>): Record
    requires Truthy(collect)
    requires d.metadata.Some? ==> d.metrics.Some?
  {
    Json(Object(ResponseData(d, collect, frames, scripts))).fields
  }

  /** The report has no `requests` section, whatever the flags:
      `processRequests` returns nothing, and the JSON round trip drops the
      key that holds its `undefined`. */
  lemma ReportHasNoRequests(d: Data, collect: Value, frames: map<string, Record>, scripts: map<string, Record>)
    requires Truthy(collect)
    requires d.metadata.Some? ==> d.metrics.Some?
    ensures "requests" !in ReportOf(d, collect, frames, scripts)
  {
    var stage := RequestsStage(d, collect, frames, scripts);
    PassThroughSections(d, collect, stage, "requests");
    JsonAt(ResponseData(d, collect, frames, scripts), "requests");
  }

  /** Every report key is a section whose flag is set (the metadata section:
      whose data is present). */
  lemma ReportKeysFollowFlags(d: Data, collect: Value, frames: map<string, Record>, scripts: map<string, Record>, k: string)
    requires Truthy(collect)
    requires d.metadata.Some? ==> d.metrics.Some?
    ensures k in ReportOf(d, collect, frames, scripts) ==> k in SectionKeys
    ensures k in ReportOf(d, collect, frames, scripts) && k != "metadata" ==> Flag(collect, FlagOf(k))
    ensures k in ReportOf(d, collect, frames, scripts) && k == "metadata" ==> d.metadata.Some?
  {
    var stage := RequestsStage(d, collect, frames, scripts);
    StageAt(d, collect, frames, scripts, k);
    PassThroughSections(d, collect, stage, k);
    JsonAt(PassThrough(d, collect, stage), k);
  }

  lemma PassThroughKeysAreNotStaged(k: string)
    requires k in PassThroughKeys
    ensures k != "frames" && k != "scripts" && k != "styleSheets" && k != "metadata" && k != "requests"
  {
  }

  /** The report carries no `undefined`, `NaN` or infinity anywhere. */
  lemma ReportIsClean(d: Data, collect: Value, frames: map<string, Record>, scripts: map<string, Record>)
    requires Truthy(collect)
    requires d.metadata.Some? ==> d.metrics.Some?
    ensures JsonClean(Object(ReportOf(d, collect, frames, scripts)))
  {
    JsonIsClean(Object(ResponseData(d, collect, frames, scripts)));
  }

  /** A set flag yields its section (frames, scripts, style sheets), and
      metadata yields its section with the metrics filled in. */
  lemma ReportSections(d: Data, collect: Value, frames: map<string, Record>, scripts: map<string, Record>)
    requires Truthy(collect)
    requires d.metadata.Some? ==> d.metrics.Some?
    ensures Flag(collect, "frames") ==> "frames" in ReportOf(d, collect, frames, scripts)
    ensures Flag(collect, "scripts") ==> "scripts" in ReportOf(d, collect, frames, scripts)
    ensures Flag(collect, "styles") ==> "styleSheets" in ReportOf(d, collect, frames, scripts)
    ensures d.metadata.Some? ==> "metadata" in ReportOf(d, collect, frames, scripts)
    ensures d.metadata.Some? ==> ReportOf(d, collect, frames, scripts)["metadata"] == Json(Object(WithMetrics(d.metadata.value, d.metrics.value)))
  {
    StageSections(d, collect, frames, scripts);
    var stage := RequestsStage(d, collect, frames, scripts);
    if Flag(collect, "frames") {
      ReportKeepsStage(d, collect, frames, scripts, "frames");
    }
    if Flag(collect, "scripts") {
      ReportKeepsStage(d, collect, frames, scripts, "scripts");
    }
    if Flag(collect, "styles") {
      ReportKeepsStage(d, collect, frames, scripts, "styleSheets");
    }
    if d.metadata.Some? {
      ReportKeepsStage(d, collect, frames, scripts, "metadata");
    }
  }

  /** A section set before the pass-through copies survives to the report. */
  lemma ReportKeepsStage(d: Data, collect: Value, frames: map<string, Record>, scripts: map<string, Record>, k: string)
    requires Truthy(collect)
    requires d.metadata.Some? ==> d.metrics.Some?
    requires k !in PassThroughKeys
    requires k in RequestsStage(d, collect, frames, scripts) && !RequestsStage(d, collect, frames, scripts)[k].Undefined?
    ensures k in ReportOf(d, collect, frames, scripts)
    ensures ReportOf(d, collect, frames, scripts)[k] == Json(RequestsStage(d, collect, frames, scripts)[k])
  {
    PassThroughSections(d, collect, RequestsStage(d, collect, frames, scripts), k);
    JsonAt(ResponseData(d, collect, frames, scripts), k);
  }

  lemma StageSections(d: Data, collect: Value, frames: map<string, Record>, scripts: map<string, Record>)
    requires Truthy(collect)
    requires d.metadata.Some? ==> d.metrics.Some?
    ensures var stage := RequestsStage(d, collect, frames, scripts);
            && (Flag(collect, "frames") ==> "frames" in stage && stage["frames"].Object?)
            && (Flag(collect, "scripts") ==> "scripts" in stage && stage["scripts"].Object?)
            && (Flag(collect, "styles") ==> "styleSheets" in stage && stage["styleSheets"].Object?)
            && (d.metadata.Some? ==> "metadata" in stage && stage["metadata"] == Object(WithMetrics(d.metadata.value, d.metrics.value)))
  {
    StageAt(d, collect, frames, scripts, "frames");
    StageAt(d, collect, frames, scripts, "scripts");
    StageAt(d, collect, frames, scripts, "styleSheets");
    StageAt(d, collect, frames, scripts, "metadata");
  }

  /** The sections built before the pass-through ones, key by key. */
  lemma StageAt(d: Data, collect: Value, frames: map<string, Record>, scripts: map<string, Record>, j: string)
    requires Truthy(collect)
    requires d.metadata.Some? ==> d.metrics.Some?
    ensures var stage := RequestsStage(d, collect, frames, scripts);
            && (j in stage <==> (j == "frames" && Flag(collect, "frames")) || (j == "scripts" && Flag(collect, "scripts")) ||
                                (j == "styleSheets" && Flag(collect, "styles")) || (j == "metadata" && d.metadata.Some?) ||
                                (j == "requests" && Flag(collect, "requests")))
            && (j == "frames" && Flag(collect, "frames") ==> stage[j] == Records(frames))
            && (j == "scripts" && Flag(collect, "scripts") ==> stage[j] == Records(scripts))
            && (j == "styleSheets" && Flag(collect, "styles") ==> stage[j] == Records(StylesOf(collect, d.styles, RangesOf(d.styleCoverage))))
            && (j == "metadata" && d.metadata.Some? ==> stage[j] == Object(WithMetrics(d.metadata.value, d.metrics.value)))
            && (j == "requests" && Flag(collect, "requests") ==> stage[j] == Undefined)
  {
    var r1 := CopySection(collect, map[], "frames", Records(frames));
    var r2 := CopySection(collect, r1, "scripts", Records(scripts));
    var r3 := StylesSection(collect, d.styles, RangesOf(d.styleCoverage), r2);
    var r4 := MetadataSection(d.metadata, d.metrics, r3);
    CopySectionAt(collect, map[], "frames", Records(frames), j);
    CopySectionAt(collect, r1, "scripts", Records(scripts), j);
    CopySectionAt(collect, r4, "requests", Undefined, j);
  }


  /** A pass-through section appears exactly when its flag is set and its
      data is not `undefined`, and then holds that data after the round trip. */
  lemma ReportPassThrough(d: Data, collect: Value, frames: map<string, Record>, scripts: map<string, Record>, k: string)
    requires Truthy(collect)
    requires d.metadata.Some? ==> d.metrics.Some?
    requires k in PassThroughKeys
    ensures k in ReportOf(d, collect, frames, scripts) <==> Flag(collect, k) && !PassValue(d, k).Undefined?
    ensures k in ReportOf(d, collect, frames, scripts) ==> ReportOf(d, collect, frames, scripts)[k] == Json(PassValue(d, k))
  {
    var stage := RequestsStage(d, collect, frames, scripts);
    StageAt(d, collect, frames, scripts, k);
    PassThroughKeysAreNotStaged(k);
    assert k !in stage;
    PassThroughSections(d, collect, stage, k);
    JsonAt(PassThrough(d, collect, stage), k);
  }

  /** `responseData` before the pass-through sections. */
  function RequestsStage(d: Data, collect: Value, frames: map<string, Record>, scripts: map<string, Record>): Record
    requires Truthy(collect)
    requires d.metadata.Some? ==> d.metrics.Some?
  {
    var r1 := CopySection(collect, map[], "frames", Records(frames));
    var r2 := CopySection(collect, r1, "scripts", Records(scripts));
    var r3 := StylesSection(collect, d.styles, RangesOf(d.styleCoverage), r2);
    var r4 := MetadataSection(d.metadata, d.metrics, r3);
    CopySection(collect, r4, "requests", Undefined)
  }

  /** The sheets as reported: with their usage when style coverage is collected. */
  function StylesOf(collect: Value, styles: map<string, Record>, cov: seq<StyleRange>): map<string, Record>
    requires Truthy(collect)
  {
    if Flag(collect, "styleCoverage") then StyleUsage(styles, cov) else styles
  }

  /** `responseData.styleSheets`, set when style sheets are collected. */
  function StylesSection(collect: Value, styles: map<string, Record>, cov: seq<StyleRange>, report: Record): Record
    requires Truthy(collect)
  {
    if Flag(collect, "styles") then report["styleSheets" := Records(StylesOf(collect, styles, cov))] else report
  }

  /** `responseData.metadata`, set when there is metadata. */
  function MetadataSection(metadata: Option<Record>, metrics: Option<seq<Metric>>, report: Record): Record
    requires metadata.Some? ==> metrics.Some?
  {
    if metadata.Some? then report["metadata" := Object(WithMetrics(metadata.value, metrics.value))] else report
  }


  // ---------------------------------------------------------------------
  // When `processData` throws.

  /** Which step a failure comes from: a missing frame or missing script
      coverage only from the scripts step, missing metrics only from the
      metadata step. */
  lemma FailureSources(d: Data, context: Value, sorted: seq<ScriptCoverage>)
    requires Shaped(d) && Reorders(sorted, d) && Truthy(context)
    ensures Expected(d, context, sorted) == Threw(MissingMetrics) ==> d.metadata.Some? && d.metrics.None?
    ensures Expected(d, context, sorted) == Threw(MissingScriptCoverage) ==>
              Flag(PropOr(context, "collect"), "scripts") && Flag(PropOr(context, "collect"), "scriptCoverage") && |d.scripts| > 0 && d.scriptCoverage.None?
    ensures Expected(d, context, sorted) == Threw(MissingFrame) ==> Flag(PropOr(context, "collect"), "scripts") && |d.scripts| > 0
  {
  }

  /** Without the scripts section, processing throws exactly when metadata
      was collected without metrics. */
  lemma ThrowsWithoutScriptsIffNoMetrics(d: Data, context: Value, sorted: seq<ScriptCoverage>)
    requires Shaped(d) && Reorders(sorted, d) && Truthy(context)
    requires !Flag(PropOr(context, "collect"), "scripts")
    ensures Expected(d, context, sorted).Threw? <==> d.metadata.Some? && d.metrics.None?
  {
  }

  /** Asking for script coverage that was never collected throws, as long as
      there are scripts. */
  lemma UncollectedCoverageThrows(d: Data, context: Value, sorted: seq<ScriptCoverage>)
    requires Shaped(d) && Reorders(sorted, d) && Truthy(context)
    requires Flag(PropOr(context, "collect"), "scripts") && Flag(PropOr(context, "collect"), "scriptCoverage")
    requires |d.scripts| > 0 && d.scriptCoverage.None?
    ensures Expected(d, context, sorted) == Threw(MissingScriptCoverage)
  {
  }

  /** A script whose frame is unknown makes processing throw once the
      scripts are asked for, whether or not coverage and DOM events are
      applied first: neither step changes a script's `frameId`. */
  lemma UnknownFrameThrows(d: Data, context: Value, sorted: seq<ScriptCoverage>, id: string)
    requires Shaped(d) && Reorders(sorted, d) && Truthy(context)
    requires Flag(PropOr(context, "collect"), "scripts")
    requires !(Flag(PropOr(context, "collect"), "scriptCoverage") && d.scriptCoverage.None?)
    requires id in d.scripts && FrameKey(Get(d.scripts[id], "frameId")) !in ReportFrames(d, PropOr(context, "collect"))
    ensures Expected(d, context, sorted) == Threw(MissingFrame)
  {
    var collect := PropOr(context, "collect");
    var frames := ReportFrames(d, collect);
    var withCoverage := Flag(collect, "scriptCoverage");
    if d.scriptCoverage.Some? {
      ReorderedShaped(d, sorted);
    }
    var covered := if withCoverage then ApplyCoverage(d.scripts, sorted) else d.scripts;
    if withCoverage {
      ApplyCoverageKeeps(d.scripts, sorted);
      ApplyCoverageKeepsFields(d.scripts, sorted, id, "frameId");
    }
    var evs := if d.domEvents.Some? then d.domEvents.value else [];
    var withEvents := if d.domEvents.Some? then AttachEvents(covered, evs) else covered;
    AttachEventsKeeps(covered, evs);
    if d.domEvents.Some? {
      AttachEventsKeepsFields(covered, evs, id, "frameId");
    }
    assert id in withEvents && Get(withEvents[id], "frameId") == Get(d.scripts[id], "frameId");
    assert !FramesKnown(withEvents, frames);
  }

  /** Every frame of the report has a URL, unless it only came from the
      resource tree. */
  lemma ReportFramesHaveUrls(d: Data, collect: Value, k: string)
    requires Truthy(collect) && k in d.frames && k !in d.resourcesTree
    ensures k in ReportFrames(d, collect) && Truthy(Get(ReportFrames(d, collect)[k], "url"))
  {
    DefaultUrlsGiveUrls(d.frames, k);
  }
}
