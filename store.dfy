/** The in-place steps of `processData` (src/dataProcessor.js) on the
    collected data object, each proved against its specification in module
    `DataProcessor`, and `processData` itself proved equal to `Expected`. */
module Processing {
  import opened Values
  import opened Coverage
  import opened DataProcessor

  /** The collected data object that `processData` normalises in place. */
  class Store {
    var frames: map<string, Record>
    var resourcesTree: map<string, Value>
    var requests: seq<Record>
    var scripts: map<string, Record>
    var domEvents: Option<seq<Record>>
    var styles: map<string, Record>
    var styleCoverage: Option<seq<StyleRange>>
    var scriptCoverage: Option<seq<ScriptCoverage>>
    var metadata: Option<Record>
    var metrics: Option<seq<Metric>>
    var dataURI: Value
    var storage: Value
    var serviceWorker: Value
    var cookies: Value
    var logs: Value
    var console: Value
    var errors: Value
    var resources: Value

    /** The object's current contents as a value. */
    function Snapshot(): Data
      reads this
    {
      Data(frames, resourcesTree, requests, scripts, domEvents, styles, styleCoverage, scriptCoverage,
           metadata, metrics, dataURI, storage, serviceWorker, cookies, logs, console, errors, resources)
    }

    /** `processFrames`: every frame gets a URL, `about:blank` by default. */
    method ProcessFrames()
      modifies this`frames
      ensures frames == DefaultUrls(old(frames))
    {
      ghost var original := frames;
      var ids := frames.Keys;
      while ids != {}
        invariant ids <= original.Keys && frames.Keys == original.Keys
        invariant forall k :: k in frames ==> frames[k] == if k in ids then original[k] else WithDefaultUrl(original[k])
        decreases ids
      {
        var frameId :| frameId in ids;
        var frame := frames[frameId];
        frame := frame["url" := Or(Get(frame, "url"), Str(AboutBlank))];
        frames := frames[frameId := frame];
        ids := ids - {frameId};
      }
    }

    /** `processNetwork`: every request records the URL of its frame. */
    method ProcessNetwork()
      requires RequestsKeyed(requests)
      modifies this`requests
      ensures requests == WithFrameUrls(frames, old(requests))
    {
      if |requests| == 0 {
        return;
      }
      ghost var original := requests;
      var i := 0;
      while i < |requests|
        invariant 0 <= i <= |requests| == |original|
        invariant forall j :: 0 <= j < |original| ==> requests[j] == if j < i then WithFrameUrl(frames, original[j]) else original[j]
      {
        var request := requests[i];
        var frameKey := KeyOf(Get(request, "frameId"));
        var frame := Or(if frameKey in frames then Object(frames[frameKey]) else Undefined, Object(map[]));
        request := request["frameURL" := Prop(frame, "url")];
        requests := requests[i := request];
        i := i + 1;
      }
    }

    /** The resource tree's entries are spread over the frames of the same id. */
    method MergeResourcesTree()
      modifies this`frames
      ensures frames == WithTree(old(frames), resourcesTree)
    {
      ghost var original := frames;
      ghost var merged := WithTree(original, resourcesTree);
      var ids := resourcesTree.Keys;
      while ids != {}
        invariant ids <= resourcesTree.Keys
        invariant TreeMerged(original, resourcesTree, merged, frames, ids)
        decreases ids
      {
        var frameId :| frameId in ids;
        TreeMergedLookup(original, resourcesTree, merged, frames, ids, frameId);
        var frame := Assign(Lookup(frames, frameId), Spread(resourcesTree[frameId]));
        assert frame == merged[frameId];
        TreeMergedStep(original, resourcesTree, merged, frames, ids, frameId, frame);
        frames := frames[frameId := frame];
        ids := ids - {frameId};
      }
      TreeMergedAll(original, resourcesTree, merged, frames);
    }

    /** `processScriptCoverage`: the coverage list takes the engine's order,
        then each applicable entry writes its script's `functionCoverage`. */
    method ProcessScriptCoverage(sorted: seq<ScriptCoverage>)
      requires scriptCoverage.Some? && multiset(sorted) == multiset(scriptCoverage.value)
      requires CoverageShaped(scriptCoverage.value)
      modifies this`scripts, this`scriptCoverage
      ensures CoverageShaped(sorted)
      ensures scriptCoverage == Some(sorted)
      ensures scripts == ApplyCoverage(old(scripts), sorted)
    {
      forall e | e in sorted ensures HasRanges(e.functions) {
        assert e in multiset(sorted);
        assert e in scriptCoverage.value;
      }
      var coverage := sorted;
      scriptCoverage := Some(coverage);
      var i := 0;
      while i < |coverage|
        invariant 0 <= i <= |coverage|
        invariant scripts == ApplyCoverage(old(scripts), coverage[..i])
        invariant scriptCoverage == Some(sorted)
      {
        assert coverage[..i + 1][..i] == coverage[..i];
        var entry := coverage[i];
        if entry.url != EvaluationScriptUrl && entry.scriptId in scripts {
          var script := scripts[entry.scriptId];
          var usedBytes, usedFunctions, unusedFunctions := SummarizeFunctions(entry.functions);
          script := script["functionCoverage" := Object(map[
            "usedBytes" := Num(usedBytes as real),
            "usage" := Divide(usedBytes as real, Get(script, "length")),
            "usedFunctions" := Arr(Strs(usedFunctions)),
            "unusedFunctions" := Arr(Strs(unusedFunctions))])];
          scripts := scripts[entry.scriptId := script];
        }
        i := i + 1;
      }
      assert coverage[..|coverage|] == coverage;
    }

    /** Each DOM event of a known script loses its `scriptId` and joins the
        script's `events` list. */
    method AttachDomEvents()
      requires domEvents.Some? && EventsKeyed(domEvents.value) && EventSlots(scripts)
      modifies this`scripts, this`domEvents
      ensures domEvents == Some(StripIds(old(scripts), old(domEvents.value)))
      ensures scripts == AttachEvents(old(scripts), old(domEvents.value))
    {
      var attached, events := AttachAll(scripts, domEvents.value);
      scripts := attached;
      domEvents := Some(events);
    }

    /** The last loop of `processScripts`: each script records its frame's
        URL, becomes `inline` when that URL is its own, and records its
        parent script. Fails as soon as a script's frame is unknown. */
    method LinkFrames() returns (ok: bool)
      requires ScriptsKeyed(scripts)
      modifies this`scripts
      ensures ok == FramesKnown(old(scripts), frames)
      ensures ok ==> scripts == FinishScripts(old(scripts), frames)
    {
      ghost var original := scripts;
      var ids := scripts.Keys;
      while ids != {}
        invariant ids <= original.Keys && scripts.Keys == original.Keys
        invariant forall k :: k in ids ==> scripts[k] == original[k]
        invariant Linked(original, frames, scripts, ids)
        decreases ids
      {
        var scriptId :| scriptId in ids;
        var script := scripts[scriptId];
        var frameKey := KeyOf(Get(script, "frameId"));
        if frameKey !in frames {
          assert scriptId in original && FrameKey(Get(original[scriptId], "frameId")) !in frames;
          return false;
        }
        var frame := frames[frameKey];
        script := LinkScript(script, frame);
        LinkedStep(original, frames, scripts, ids, scriptId, script);
        scripts := scripts[scriptId := script];
        ids := ids - {scriptId};
      }
      LinkedAll(original, frames, scripts);
      return true;
    }

    /** `processScripts`. */
    method ProcessScripts(withCoverage: bool, sorted: seq<ScriptCoverage>) returns (failure: Option<Failure>)
      requires ScriptsKeyed(scripts) && NoEvents(scripts)
      requires domEvents.Some? ==> EventsKeyed(domEvents.value)
      requires scriptCoverage.Some? ==> CoverageShaped(scriptCoverage.value) && multiset(sorted) == multiset(scriptCoverage.value)
      requires scriptCoverage.Some? ==> CoverageShaped(sorted)
      modifies this`scripts, this`scriptCoverage, this`domEvents
      ensures var expected := ScriptsStep(old(scripts), old(domEvents), old(scriptCoverage).Some?, frames, withCoverage, sorted);
              && (expected.Err? ==> failure == Some(expected.failure))
              && (expected.Ok? ==> failure.None? && scripts == expected.value)
      ensures var reached := |old(scripts)| > 0 && !(withCoverage && old(scriptCoverage).None?);
              && scriptCoverage == (if reached && withCoverage then Some(sorted) else old(scriptCoverage))
              && domEvents == (if reached && old(domEvents).Some? then Some(StripIds(old(scripts), old(domEvents).value)) else old(domEvents))
    {
      if |scripts| == 0 {
        return None;
      }
      if withCoverage {
        if scriptCoverage.None? {
          return Some(MissingScriptCoverage);
        }
        ProcessScriptCoverage(sorted);
        ApplyCoverageKeeps(old(scripts), sorted);
      }
      if domEvents.Some? {
        ghost var covered := scripts;
        AttachDomEvents();
        StripIdsByKeys(covered, old(scripts), old(domEvents.value));
        AttachEventsKeeps(if withCoverage then ApplyCoverage(old(scripts), sorted) else old(scripts), old(domEvents.value));
      }
      var ok := LinkFrames();
      if !ok {
        return Some(MissingFrame);
      }
      return None;
    }

    /** `processStyleCoverage`: each sheet with ranges gets its byte sum and
        the share of its length those bytes make up. */
    method ProcessStyleCoverage()
      requires NoStyleCoverage(styles)
      modifies this`styles
      ensures styles == StyleUsage(old(styles), RangesOf(styleCoverage))
    {
      var coverage := if styleCoverage.Some? then styleCoverage.value else [];
      SumUsedBytes(coverage);
      SetUsage(old(styles), coverage);
    }

    /** The first loop of `processStyleCoverage`: each range's length is
        added to the `usedBytes` of its sheet, if the sheet is known. */
    method SumUsedBytes(coverage: seq<StyleRange>)
      requires NoStyleCoverage(styles)
      modifies this`styles
      ensures styles == UsedBytesPass(old(styles), coverage)
    {
      ghost var original := styles;
      var i := 0;
      while i < |coverage|
        invariant 0 <= i <= |coverage|
        invariant styles == UsedBytesPass(original, coverage[..i])
      {
        styles := AddRange(original, coverage, i, styles);
        i := i + 1;
      }
      assert coverage[..|coverage|] == coverage;
    }

    /** The second loop of `processStyleCoverage`: every sheet with a
        coverage object gets `usage`, its byte sum over its `length`. */
    method SetUsage(ghost original: map<string, Record>, ghost coverage: seq<StyleRange>)
      requires NoStyleCoverage(original) && styles == UsedBytesPass(original, coverage)
      modifies this`styles
      ensures styles == StyleUsage(original, coverage)
    {
      ghost var passed := styles;
      ghost var target := StyleUsage(original, coverage);
      var ids := styles.Keys;
      while ids != {}
        invariant UsageSetOutside(passed, target, styles, ids)
        decreases ids
      {
        var styleId :| styleId in ids;
        styles := UsageAt(original, coverage, passed, target, styles, ids, styleId);
        ids := ids - {styleId};
      }
      assert styles.Keys == target.Keys;
    }

    /** `processRequests`: each request is stamped with its index, and the
        requests are grouped by origin into a result that is then dropped. */
    method ProcessRequests(originOf: Value -> Option<string>) returns (ghost reqs: map<string, seq<nat>>)
      modifies this`requests
      ensures requests == Stamped(old(requests))
      ensures reqs == GroupByOrigin(originOf, old(requests))
    {
      ghost var original := requests;
      ghost var stamped := Stamped(original);
      reqs := map[];
      var i: nat := 0;
      while i < |requests|
        invariant i <= |requests| == |original|
        invariant forall j :: 0 <= j < i ==> requests[j] == stamped[j]
        invariant forall j :: i <= j < |requests| ==> requests[j] == original[j]
        invariant reqs == GroupByOrigin(originOf, original[..i])
      {
        var req;
        req, reqs := StampRequest(originOf, requests[i], i, reqs);
        assert req == stamped[i];
        requests := requests[i := req];
        GroupStep(originOf, original, i);
        i := i + 1;
      }
      assert requests == stamped;
      assert original[..|original|] == original;
    }
  }

  /** The frames once the tree entries outside `ids` have been merged in:
      those entries as in `merged`, every other frame as in `original`. */
  ghost predicate TreeMerged(original: map<string, Record>, tree: map<string, Value>, merged: map<string, Record>,
                             frames: map<string, Record>, ids: set<string>)
    requires merged.Keys == original.Keys + tree.Keys
  {
    && (forall k :: k in frames <==> k in original || (k in tree && k !in ids))
    && (forall k :: k in frames ==> frames[k] == if k in tree && k !in ids then merged[k] else original[k])
  }

  lemma TreeMergedLookup(original: map<string, Record>, tree: map<string, Value>, merged: map<string, Record>,
                         frames: map<string, Record>, ids: set<string>, id: string)
    requires merged.Keys == original.Keys + tree.Keys
    requires ids <= tree.Keys && id in ids && TreeMerged(original, tree, merged, frames, ids)
    ensures Lookup(frames, id) == Lookup(original, id)
  {
    assert id in frames <==> id in original;
  }

  lemma TreeMergedStep(original: map<string, Record>, tree: map<string, Value>, merged: map<string, Record>,
                       frames: map<string, Record>, ids: set<string>, id: string, frame: Record)
    requires merged.Keys == original.Keys + tree.Keys
    requires ids <= tree.Keys && id in ids && TreeMerged(original, tree, merged, frames, ids)
    requires frame == merged[id]
    ensures TreeMerged(original, tree, merged, frames[id := frame], ids - {id})
  {
    var next := frames[id := frame];
    var rest := ids - {id};
    forall k ensures k in next <==> k in original || (k in tree && k !in rest) {
    }
    forall k | k in next ensures next[k] == if k in tree && k !in rest then merged[k] else original[k] {
      if k != id {
        assert next[k] == frames[k];
      }
    }
  }

  lemma TreeMergedAll(original: map<string, Record>, tree: map<string, Value>, merged: map<string, Record>, frames: map<string, Record>)
    requires merged.Keys == original.Keys + tree.Keys
    requires TreeMerged(original, tree, merged, frames, {})
    requires forall k :: k in original && k !in tree ==> merged[k] == original[k]
    ensures frames == merged
  {
    assert frames.Keys == merged.Keys;
    forall k | k in frames ensures frames[k] == merged[k] {
    }
  }

  /** The scripts outside `ids` have been given their frame's URL. */
  ghost predicate Linked(original: map<string, Record>, frames: map<string, Record>, scripts: map<string, Record>, ids: set<string>)
    requires ScriptsKeyed(original) && scripts.Keys == original.Keys
  {
    forall k :: k in original && k !in ids ==>
      FrameKey(Get(original[k], "frameId")) in frames &&
      scripts[k] == FinishScript(original[k], frames[FrameKey(Get(original[k], "frameId"))])
  }

  lemma LinkedStep(original: map<string, Record>, frames: map<string, Record>, scripts: map<string, Record>, ids: set<string>, id: string, script: Record)
    requires ScriptsKeyed(original) && scripts.Keys == original.Keys && id in ids && ids <= original.Keys
    requires Linked(original, frames, scripts, ids)
    requires FrameKey(Get(original[id], "frameId")) in frames
    requires script == FinishScript(original[id], frames[FrameKey(Get(original[id], "frameId"))])
    ensures Linked(original, frames, scripts[id := script], ids - {id})
  {
  }

  lemma LinkedAll(original: map<string, Record>, frames: map<string, Record>, scripts: map<string, Record>)
    requires ScriptsKeyed(original) && scripts.Keys == original.Keys
    requires Linked(original, frames, scripts, {})
    ensures FramesKnown(original, frames) && scripts == FinishScripts(original, frames)
  {
  }

  /** The body of the last loop of `processScripts` for one script and its frame. */
  method LinkScript(script: Record, frame: Record) returns (r: Record)
    ensures r == FinishScript(script, frame)
  {
    r := script["frameURL" := Get(frame, "url")];
    if StrictEquals(Get(r, "frameURL"), Get(r, "url")) {
      r := r["url" := Str(Inline)];
    }
    var stackTrace := Get(r, "stackTrace");
    if Truthy(stackTrace) {
      var callFrames := Prop(stackTrace, "callFrames");
      r := r["parentScript" := if Truthy(callFrames) then Element(callFrames, 0) else callFrames];
    }
  }

  /** The first loop's body at range `i`: the sheet it names, if known,
      has the range's length added to its byte sum. */
  method AddRange(ghost original: map<string, Record>, coverage: seq<StyleRange>, i: nat, styles: map<string, Record>)
    returns (styles': map<string, Record>)
    requires i < |coverage| && NoStyleCoverage(original) && styles == UsedBytesPass(original, coverage[..i])
    ensures styles' == UsedBytesPass(original, coverage[..i + 1])
  {
    var range := coverage[i];
    ghost var after := UsedBytesPass(original, coverage[..i + 1]);
    UsedBytesStep(original, coverage, i);
    styles' := styles;
    if range.styleSheetId in styles {
      ghost var sum := if Touches(coverage[..i], range.styleSheetId) then StyleBytes(coverage[..i], range.styleSheetId) else 0;
      var style := AddUsedBytes(styles[range.styleSheetId], original[range.styleSheetId], sum, range.endOffset - range.startOffset);
      styles' := styles[range.styleSheetId := style];
      assert styles' == after;
    }
  }

  /** The first loop's body for a known sheet: its coverage object is
      created if missing and the range's length added to `usedBytes`. */
  method AddUsedBytes(style: Record, ghost base: Record, ghost sum: int, length: int) returns (r: Record)
    requires "coverage" !in base
    requires style == base["coverage" := Object(map["usedBytes" := Num(sum as real)])] || (style == base && sum == 0)
    ensures r == base["coverage" := Object(map["usedBytes" := Num(sum as real + length as real)])]
  {
    var cov := Or(Get(style, "coverage"), Object(map[]));
    var used := Or(Prop(cov, "usedBytes"), Num(0.0));
    cov := Object(cov.fields["usedBytes" := Num(used.r + length as real)]);
    assert cov.fields == map["usedBytes" := Num(sum as real + length as real)];
    r := style["coverage" := cov];
  }

  /** The sheets once the usage loop has passed every id outside `ids`:
      those as in `target`, the sheets in `ids` as the first loop left them. */
  ghost predicate UsageSetOutside(passed: map<string, Record>, target: map<string, Record>, styles: map<string, Record>, ids: set<string>)
  {
    && ids <= passed.Keys && styles.Keys == passed.Keys == target.Keys
    && (forall k :: k in ids ==> styles[k] == passed[k])
    && (forall k :: k in styles && k !in ids ==> styles[k] == target[k])
  }

  /** One pass of the usage loop, for the sheet `styleId`. */
  method UsageAt(ghost original: map<string, Record>, ghost coverage: seq<StyleRange>, ghost passed: map<string, Record>,
                 ghost target: map<string, Record>, styles: map<string, Record>, ghost ids: set<string>, styleId: string)
    returns (styles': map<string, Record>)
    requires NoStyleCoverage(original) && passed == UsedBytesPass(original, coverage) && target == StyleUsage(original, coverage)
    requires styleId in ids && UsageSetOutside(passed, target, styles, ids)
    ensures UsageSetOutside(passed, target, styles', ids - {styleId})
  {
    var style := SetSheetUsage(styles[styleId], original[styleId], StyleBytes(coverage, styleId) as real);
    assert style == target[styleId];
    styles' := styles[styleId := style];
  }

  /** The second loop's body: a sheet with a coverage object gets its
      `usage`, the byte sum over the sheet's `length`. */
  method SetSheetUsage(style: Record, ghost base: Record, ghost bytes: real) returns (r: Record)
    requires "coverage" !in base
    requires style == base || style == base["coverage" := Object(map["usedBytes" := Num(bytes)])]
    ensures style == base ==> r == base
    ensures style != base ==> r == base["coverage" := Object(map["usedBytes" := Num(bytes), "usage" := Divide(bytes, Get(base, "length"))])]
  {
    r := style;
    if Truthy(Get(style, "coverage")) {
      var cov := Get(style, "coverage");
      r := style["coverage" := Object(cov.fields["usage" := Divide(Prop(cov, "usedBytes").r, Get(style, "length"))])];
    }
  }

  /** The DOM-event loop of `processScripts` over the scripts and events it
      reads: each event whose script is known loses its `scriptId` and is
      pushed onto that script's `events`. */
  method AttachAll(scripts: map<string, Record>, domEvents: seq<Record>) returns (attached: map<string, Record>, events: seq<Record>)
    requires EventsKeyed(domEvents) && EventSlots(scripts)
    ensures attached == AttachEvents(scripts, domEvents)
    ensures events == StripIds(scripts, domEvents)
  {
    ghost var stripped := StripIds(scripts, domEvents);
    attached := scripts;
    events := domEvents;
    var i: nat := 0;
    while i < |events|
      invariant i <= |events| == |domEvents|
      invariant attached == AttachEvents(scripts, domEvents[..i])
      invariant StrippedUpTo(stripped, domEvents, events, i)
    {
      attached, events := AttachAt(scripts, domEvents, i, attached, events, stripped);
      i := i + 1;
    }
    assert events == stripped;
    assert domEvents[..|domEvents|] == domEvents;
  }

  /** The DOM events once the loop has passed position `i`: those before it
      as in `stripped`, the others as they came. */
  ghost predicate StrippedUpTo(stripped: seq<Record>, domEvents: seq<Record>, events: seq<Record>, i: nat)
  {
    && |events| == |domEvents| == |stripped|
    && (forall j :: 0 <= j < i && j < |events| ==> events[j] == stripped[j])
    && (forall j :: i <= j < |events| ==> events[j] == domEvents[j])
  }

  /** One pass of the DOM-event loop, at position `i`. */
  method AttachAt(scripts: map<string, Record>, domEvents: seq<Record>, i: nat, attached: map<string, Record>, events: seq<Record>,
                  ghost stripped: seq<Record>)
    returns (attached': map<string, Record>, events': seq<Record>)
    requires EventsKeyed(domEvents) && EventSlots(scripts) && i < |domEvents|
    requires stripped == StripIds(scripts, domEvents) && StrippedUpTo(stripped, domEvents, events, i)
    requires attached == AttachEvents(scripts, domEvents[..i])
    ensures attached' == AttachEvents(scripts, domEvents[..i + 1])
    ensures StrippedUpTo(stripped, domEvents, events', i + 1)
  {
    AttachEventsStep(scripts, domEvents, i);
    attached' := attached;
    events' := events;
    var eventObj := events[i];
    var scriptId := KeyOf(Get(eventObj, "scriptId"));
    if scriptId in attached {
      var script;
      eventObj, script := AttachEvent(attached[scriptId], eventObj);
      events' := events[i := eventObj];
      attached' := attached[scriptId := script];
    }
    assert events'[i] == stripped[i];
  }

  /** The DOM-event loop's body for an event whose script is known: the
      event loses its `scriptId` and is pushed onto the script's `events`. */
  method AttachEvent(script: Record, eventObj: Record) returns (ev: Record, r: Record)
    requires "events" in script ==> script["events"].Arr?
    ensures ev == Stripped(eventObj)
    ensures r == script["events" := Arr(EventsOf(script) + [Object(Stripped(eventObj))])]
  {
    ev := eventObj - {"scriptId"};
    var list := Or(Get(script, "events"), Arr([]));
    r := script["events" := Arr(list.items + [Object(ev)])];
  }

  /** One event of the DOM-event loop, seen from the scripts. */
  lemma AttachEventsStep(scripts: map<string, Record>, evs: seq<Record>, i: nat)
    requires EventsKeyed(evs) && EventSlots(scripts) && i < |evs|
    ensures EventsKeyed(evs[..i]) && EventsKeyed(evs[..i + 1])
    ensures var s := AttachEvents(scripts, evs[..i]);
            var id := EventScript(evs[i]);
            AttachEvents(scripts, evs[..i + 1]) ==
              if id in s then s[id := s[id]["events" := Arr(EventsOf(s[id]) + [Object(Stripped(evs[i]))])]] else s
  {
    assert evs[..i + 1][..i] == evs[..i];
  }

  /** The `processRequests` loop's body: the request is stamped with its
      key and its position appended to its origin's bucket. */
  method StampRequest(originOf: Value -> Option<string>, req: Record, i: nat, ghost reqs: map<string, seq<nat>>)
    returns (stamped: Record, ghost grouped: map<string, seq<nat>>)
    ensures stamped == req["requestId" := Str(IndexKey(i))]
    ensures grouped == reqs[BucketOf(originOf, req) := Bucket(reqs, BucketOf(originOf, req)) + [i]]
  {
    stamped := req["requestId" := Str(IndexKey(i))];
    var origin := originOf(Get(stamped, "url"));
    var bucket := if origin.Some? then origin.value else OtherBucket;
    assert Get(stamped, "url") == Get(req, "url");
    grouped := reqs[bucket := Bucket(reqs, bucket) + [i]];
  }

  /** One request of the `processRequests` loop, seen from the grouping. */
  lemma GroupStep(originOf: Value -> Option<string>, rs: seq<Record>, i: nat)
    requires i < |rs|
    ensures var g := GroupByOrigin(originOf, rs[..i]);
            var b := BucketOf(originOf, rs[i]);
            GroupByOrigin(originOf, rs[..i + 1]) == g[b := Bucket(g, b) + [i]]
  {
    assert rs[..i + 1][..i] == rs[..i];
  }

  /** One range of the first style loop: it adds its length to its own
      sheet's sum (starting it at zero) and leaves every other sheet alone. */
  lemma UsedBytesStep(original: map<string, Record>, cov: seq<StyleRange>, i: nat)
    requires i < |cov| && NoStyleCoverage(original)
    ensures cov[i].styleSheetId !in original ==> UsedBytesPass(original, cov[..i + 1]) == UsedBytesPass(original, cov[..i])
    ensures cov[i].styleSheetId in original ==>
              var id := cov[i].styleSheetId;
              var used := if Touches(cov[..i], id) then StyleBytes(cov[..i], id) else 0;
              && (UsedBytesPass(original, cov[..i])[id] == original[id]["coverage" := Object(map["usedBytes" := Num(used as real)])] ||
                  (UsedBytesPass(original, cov[..i])[id] == original[id] && used == 0))
              && UsedBytesPass(original, cov[..i + 1]) ==
                   UsedBytesPass(original, cov[..i])[id := original[id]["coverage" := Object(map["usedBytes" := Num(used as real + (cov[i].endOffset - cov[i].startOffset) as real)])]]
  {
    StyleStep(cov, i);
    var id := cov[i].styleSheetId;
    var before := UsedBytesPass(original, cov[..i]);
    var after := UsedBytesPass(original, cov[..i + 1]);
    if id in original {
      var used := if Touches(cov[..i], id) then StyleBytes(cov[..i], id) else 0;
      if !Touches(cov[..i], id) {
        assert StyleBytes(cov[..i], id) == 0 by {
          StyleBytesUntouched(cov[..i], id);
        }
      }
      assert after[id] == original[id]["coverage" := Object(map["usedBytes" := Num(used as real + (cov[i].endOffset - cov[i].startOffset) as real)])];
    }
  }

  lemma {:induction false} StyleBytesUntouched(cov: seq<StyleRange>, id: string)
    requires !Touches(cov, id)
    ensures StyleBytes(cov, id) == 0
  {
    if cov != [] {
      var init := cov[..|cov| - 1];
      StyleBytesUntouched(init, id);
    }
  }

  /** One range of the first style loop, seen from every sheet. */
  lemma StyleStep(cov: seq<StyleRange>, i: nat)
    requires i < |cov|
    ensures forall k :: StyleBytes(cov[..i + 1], k) == StyleBytes(cov[..i], k) + if cov[i].styleSheetId == k then cov[i].endOffset - cov[i].startOffset else 0
    ensures forall k :: Touches(cov[..i + 1], k) <==> Touches(cov[..i], k) || cov[i].styleSheetId == k
  {
    assert cov[..i + 1][..i] == cov[..i];
    forall k ensures Touches(cov[..i + 1], k) <==> Touches(cov[..i], k) || cov[i].styleSheetId == k {
      if cov[i].styleSheetId == k {
        assert cov[..i + 1][i].styleSheetId == k;
      }
      if Touches(cov[..i], k) {
        var j :| 0 <= j < i && cov[..i][j].styleSheetId == k;
        assert cov[..i + 1][j].styleSheetId == k;
      }
    }
  }

  /** `processMetrics`: each metric's value under its name, the last one winning. */
  method ProcessMetrics(collectedMetrics: seq<Metric>) returns (metrics: Record)
    ensures metrics == MetricsOf(collectedMetrics)
    ensures forall n :: n in metrics <==> exists i :: 0 <= i < |collectedMetrics| && collectedMetrics[i].name == n
    ensures forall i :: 0 <= i < |collectedMetrics| && (forall j :: i < j < |collectedMetrics| ==> collectedMetrics[j].name != collectedMetrics[i].name) ==>
              metrics[collectedMetrics[i].name] == collectedMetrics[i].value
  {
    metrics := map[];
    var i := 0;
    while i < |collectedMetrics|
      invariant 0 <= i <= |collectedMetrics|
      invariant metrics == MetricsOf(collectedMetrics[..i])
    {
      assert collectedMetrics[..i + 1][..i] == collectedMetrics[..i];
      var metric := collectedMetrics[i];
      metrics := metrics[metric.name := metric.value];
      i := i + 1;
    }
    assert collectedMetrics[..|collectedMetrics|] == collectedMetrics;
    forall i | 0 <= i < |collectedMetrics| && (forall j :: i < j < |collectedMetrics| ==> collectedMetrics[j].name != collectedMetrics[i].name)
      ensures metrics[collectedMetrics[i].name] == collectedMetrics[i].value
    {
      MetricsLastWins(collectedMetrics, i);
    }
  }

  /** The sections `processData` copies from the collected data as they
      are, each under its own flag; `storage` is copied twice. */
  method CopyPassThrough(data: Store, collect: Value, responseData: Record, ghost d: Data) returns (report: Record)
    requires Truthy(collect)
    requires d.dataURI == data.dataURI && d.storage == data.storage && d.serviceWorker == data.serviceWorker && d.cookies == data.cookies
    requires d.logs == data.logs && d.console == data.console && d.errors == data.errors && d.resources == data.resources
    ensures report == PassThrough(d, collect, responseData)
  {
    report := responseData;
    report := CopyIfCollected(collect, report, "dataURI", data.dataURI);
    report := CopyIfCollected(collect, report, "storage", data.storage);
    report := CopyIfCollected(collect, report, "serviceWorker", data.serviceWorker);
    report := CopyIfCollected(collect, report, "cookies", data.cookies);
    report := CopyIfCollected(collect, report, "logs", data.logs);
    report := CopyIfCollected(collect, report, "console", data.console);
    report := CopyIfCollected(collect, report, "errors", data.errors);
    report := CopyIfCollected(collect, report, "storage", data.storage);
    report := CopyIfCollected(collect, report, "resources", data.resources);
  }

  /** `if (collect.k) responseData.k = v`. */
  method CopyIfCollected(collect: Value, report: Record, k: string, v: Value) returns (r: Record)
    requires Truthy(collect)
    ensures r == CopySection(collect, report, k, v)
  {
    r := report;
    if Flag(collect, k) {
      r := report[k := v];
    }
  }


  /** The frames block of `processData`, with the two passes before it:
      default URLs, request frame URLs, and (when collected) the resources
      tree merged into the frames, which the response shares. */
  method CollectFrames(data: Store, collect: Value) returns (responseData: Record)
    requires Truthy(collect) && RequestsKeyed(data.requests)
    modifies data`frames, data`requests
    ensures data.frames == ReportFrames(old(data.Snapshot()), collect)
    ensures data.requests == WithFrameUrls(DefaultUrls(old(data.frames)), old(data.requests))
    ensures responseData == CopySection(collect, map[], "frames", Records(data.frames))
  {
    responseData := map[];
    data.ProcessFrames();
    data.ProcessNetwork();
    if Flag(collect, "frames") {
      data.MergeResourcesTree();
      responseData := responseData["frames" := Records(data.frames)];
    }
  }

  /** The scripts block of `processData`; `d` is the data as collected. */
  method CollectScripts(data: Store, collect: Value, sortedCoverage: seq<ScriptCoverage>, responseData: Record, ghost d: Data)
    returns (report: Record, failure: Option<Failure>)
    requires Truthy(collect) && ScriptsKeyed(d.scripts) && NoEvents(d.scripts)
    requires d.domEvents.Some? ==> EventsKeyed(d.domEvents.value)
    requires d.scriptCoverage.Some? ==> CoverageShaped(d.scriptCoverage.value) && multiset(sortedCoverage) == multiset(d.scriptCoverage.value)
    requires d.scriptCoverage.Some? ==> CoverageShaped(sortedCoverage)
    requires data.scripts == d.scripts && data.domEvents == d.domEvents && data.scriptCoverage == d.scriptCoverage
    modifies data`scripts, data`scriptCoverage, data`domEvents
    ensures !Flag(collect, "scripts") ==> failure.None? && data.scripts == d.scripts && report == responseData
    ensures Flag(collect, "scripts") ==>
              var expected := ScriptsStep(d.scripts, d.domEvents, d.scriptCoverage.Some?, data.frames, Flag(collect, "scriptCoverage"), sortedCoverage);
              && (expected.Err? ==> failure == Some(expected.failure))
              && (expected.Ok? ==> failure.None? && data.scripts == expected.value && report == responseData["scripts" := Records(expected.value)])
    ensures var reached := Flag(collect, "scripts") && |d.scripts| > 0 && !(Flag(collect, "scriptCoverage") && d.scriptCoverage.None?);
            && data.scriptCoverage == (if reached && Flag(collect, "scriptCoverage") then Some(sortedCoverage) else d.scriptCoverage)
            && data.domEvents == (if reached && d.domEvents.Some? then Some(StripIds(d.scripts, d.domEvents.value)) else d.domEvents)
  {
    report := responseData;
    failure := None;
    if Flag(collect, "scripts") {
      failure := data.ProcessScripts(Flag(collect, "scriptCoverage"), sortedCoverage);
      if failure.Some? {
        return;
      }
      report := report["scripts" := Records(data.scripts)];
    }
  }

  /** The style sheets block of `processData`. */
  method CollectStyles(data: Store, collect: Value, responseData: Record) returns (report: Record)
    requires Truthy(collect) && NoStyleCoverage(data.styles)
    modifies data`styles
    ensures data.styles == if Flag(collect, "styles") then StylesOf(collect, old(data.styles), RangesOf(data.styleCoverage)) else old(data.styles)
    ensures report == StylesSection(collect, old(data.styles), RangesOf(data.styleCoverage), responseData)
  {
    report := responseData;
    if Flag(collect, "styles") {
      if Flag(collect, "styleCoverage") {
        data.ProcessStyleCoverage();
      }
      report := report["styleSheets" := Records(data.styles)];
    }
  }

  /** The metadata block of `processData`: the metadata object, shared with
      the response, gets the metrics; without metrics `processMetrics` throws. */
  method CollectMetadata(data: Store, responseData: Record) returns (report: Record, ok: bool)
    modifies data`metadata
    ensures ok <==> !(old(data.metadata).Some? && data.metrics.None?)
    ensures ok && old(data.metadata).Some? ==> data.metadata == Some(WithMetrics(old(data.metadata).value, data.metrics.value))
    ensures ok && old(data.metadata).None? ==> data.metadata.None?
    ensures ok ==> report == MetadataSection(old(data.metadata), data.metrics, responseData)
  {
    report := responseData;
    if data.metadata.Some? {
      if data.metrics.None? {
        return report, false;
      }
      var metrics := ProcessMetrics(data.metrics.value);
      data.metadata := Some(data.metadata.value["metrics" := Object(metrics)]);
      report := report["metadata" := Object(data.metadata.value)];
    }
    return report, true;
  }

  /** The requests block of `processData`: the requests are stamped and
      grouped, and the response gets what `processRequests` returns, which
      is `undefined`. */
  method CollectRequests(data: Store, collect: Value, originOf: Value -> Option<string>, responseData: Record) returns (report: Record)
    requires Truthy(collect)
    modifies data`requests
    ensures Flag(collect, "requests") ==> data.requests == Stamped(old(data.requests))
    ensures !Flag(collect, "requests") ==> data.requests == old(data.requests)
    ensures report == CopySection(collect, responseData, "requests", Undefined)
  {
    report := responseData;
    if Flag(collect, "requests") {
      ghost var reqs := data.ProcessRequests(originOf);
      report := report["requests" := Undefined];
    }
  }

  /** `processData` from its first pass to the requests block: the
      sections of `responseData` that processing builds, or the failure. */
  method BuildSections(data: Store, collect: Value, originOf: Value -> Option<string>, sortedCoverage: seq<ScriptCoverage>)
    returns (responseData: Record, failure: Option<Failure>)
    requires Truthy(collect) && Shaped(data.Snapshot()) && Reorders(sortedCoverage, data.Snapshot())
    modifies data`frames, data`requests, data`scripts, data`scriptCoverage, data`domEvents, data`styles, data`metadata
    ensures var expected := StageOf(old(data.Snapshot()), collect, sortedCoverage);
            && (expected.Err? ==> failure == Some(expected.failure))
            && (expected.Ok? ==> failure.None? && responseData == expected.value)
    ensures failure.None? && Flag(collect, "requests") ==>
              data.requests == Stamped(WithFrameUrls(DefaultUrls(old(data.frames)), old(data.requests)))
  {
    ghost var d := data.Snapshot();
    responseData, failure := CollectFramesAndScripts(data, collect, sortedCoverage);
    if failure.Some? {
      return;
    }
    assert data.styles == d.styles && data.styleCoverage == d.styleCoverage && data.metadata == d.metadata && data.metrics == d.metrics;
    responseData, failure := CollectTail(data, collect, originOf, responseData);
  }

  /** The frames and scripts blocks of `processData`. */
  method CollectFramesAndScripts(data: Store, collect: Value, sortedCoverage: seq<ScriptCoverage>)
    returns (responseData: Record, failure: Option<Failure>)
    requires Truthy(collect) && Shaped(data.Snapshot()) && Reorders(sortedCoverage, data.Snapshot())
    modifies data`frames, data`requests, data`scripts, data`scriptCoverage, data`domEvents
    ensures data.requests == WithFrameUrls(DefaultUrls(old(data.frames)), old(data.requests))
    ensures var frames := ReportFrames(old(data.Snapshot()), collect);
            var scripts := ScriptsOf(old(data.Snapshot()), collect, frames, sortedCoverage);
            && (scripts.Err? ==> failure == Some(scripts.failure))
            && (scripts.Ok? ==> failure.None?)
            && (scripts.Ok? ==>
                  responseData == CopySection(collect, CopySection(collect, map[], "frames", Records(frames)), "scripts", Records(scripts.value)))
  {
    ghost var d := data.Snapshot();
    responseData := CollectFrames(data, collect);
    if d.scriptCoverage.Some? {
      ReorderedShaped(d, sortedCoverage);
    }
    responseData, failure := CollectScripts(data, collect, sortedCoverage, responseData, d);
  }

  /** The style sheets, metadata and requests blocks of `processData`. */
  method CollectTail(data: Store, collect: Value, originOf: Value -> Option<string>, responseData: Record)
    returns (report: Record, failure: Option<Failure>)
    requires Truthy(collect) && NoStyleCoverage(data.styles)
    modifies data`requests, data`styles, data`metadata
    ensures var expected := StageTail(collect, old(data.styles), data.styleCoverage, old(data.metadata), data.metrics, responseData);
            && (expected.Err? ==> failure == Some(expected.failure))
            && (expected.Ok? ==> failure.None? && report == expected.value)
    ensures failure.None? && Flag(collect, "requests") ==> data.requests == Stamped(old(data.requests))
  {
    report := CollectStyles(data, collect, responseData);
    report, failure := CollectMetadataAndRequests(data, collect, originOf, report);
  }

  /** The metadata and requests blocks of `processData`. */
  method CollectMetadataAndRequests(data: Store, collect: Value, originOf: Value -> Option<string>, responseData: Record)
    returns (report: Record, failure: Option<Failure>)
    requires Truthy(collect)
    modifies data`requests, data`metadata
    ensures var expected := StageEnd(collect, old(data.metadata), data.metrics, responseData);
            && (expected.Err? ==> failure == Some(expected.failure))
            && (expected.Ok? ==> failure.None? && report == expected.value)
    ensures failure.None? && Flag(collect, "requests") ==> data.requests == Stamped(old(data.requests))
  {
    var ok;
    report, ok := CollectMetadata(data, responseData);
    if !ok {
      return report, Some(MissingMetrics);
    }
    report := CollectRequests(data, collect, originOf, report);
    failure := None;
  }

  /** `processData(data, context)`; `originOf` stands for `new URL(v).origin`
      and `sortedCoverage` for the order the engine's sort leaves the script
      coverage in. */
  method ProcessData(data: Store?, context: Value, originOf: Value -> Option<string>, sortedCoverage: seq<ScriptCoverage>)
    returns (out: Outcome)
    requires data != null ==> Shaped(data.Snapshot()) && Reorders(sortedCoverage, data.Snapshot())
    modifies data
    ensures data == null ==> out == NoResult
    ensures data != null ==> out == Expected(old(data.Snapshot()), context, sortedCoverage)
    ensures data != null && out.Report? && Truthy(context) && Flag(PropOr(context, "collect"), "requests") ==>
              data.requests == Stamped(WithFrameUrls(DefaultUrls(old(data.frames)), old(data.requests)))
  {
    if data == null || !Truthy(context) {
      return NoResult;
    }
    var collect := PropOr(context, "collect");
    out := Respond(data, collect, originOf, sortedCoverage);
  }

  /** `processData` once `collect` is known: the sections, then the
      pass-through ones, then the JSON round trip. */
  method Respond(data: Store, collect: Value, originOf: Value -> Option<string>, sortedCoverage: seq<ScriptCoverage>)
    returns (out: Outcome)
    requires Truthy(collect) && Shaped(data.Snapshot()) && Reorders(sortedCoverage, data.Snapshot())
    modifies data`frames, data`requests, data`scripts, data`scriptCoverage, data`domEvents, data`styles, data`metadata
    ensures out == Collected(old(data.Snapshot()), collect, sortedCoverage)
    ensures out.Report? && Flag(collect, "requests") ==>
              data.requests == Stamped(WithFrameUrls(DefaultUrls(old(data.frames)), old(data.requests)))
  {
    ghost var d := data.Snapshot();
    var responseData, failure := BuildSections(data, collect, originOf, sortedCoverage);
    if failure.Some? {
      return Threw(failure.value);
    }
    responseData := CopyPassThrough(data, collect, responseData, d);
    out := Report(Json(Object(responseData)).fields);
  }
}
