/** The sample viewer's view of the collected resources
    (sample/src/index.js): each request becomes one table row, and the
    script that initiated it is found by walking the initiator's stack
    trace up its `parent` links. */
module ResourceView {
  import opened Values

  // ---------------------------------------------------------------------
  // `getInitiatorFromStack`: the stack levels, oldest first.

  /** `frame.parent` on a truthy stack level, spelled out on the object so
      that the walk visibly descends into it. */
  function Parent(frame: Value): (r: Value)
    requires Truthy(frame)
    ensures r == Prop(frame, "parent")
  {
    if frame.Object? && "parent" in frame.fields then frame.fields["parent"] else Undefined
  }

  /** The number of levels of a stack: the truthy levels along `parent`. */
  function Depth(frame: Value): nat
  {
    if !Truthy(frame) then 0
    else if frame.Object? && "parent" in frame.fields then 1 + Depth(frame.fields["parent"])
    else 1
  }

  /** The level `i` steps up from `frame`. */
  function Ancestor(frame: Value, i: nat): (r: Value)
    ensures i < Depth(frame) ==> Truthy(r)
  {
    if i == 0 || !Truthy(frame) then frame
    else if frame.Object? && "parent" in frame.fields then Ancestor(frame.fields["parent"], i - 1)
    else Undefined
  }

  /** The `callFrames` of every level of a truthy stack, the outermost
      ancestor first and `frame`'s own last: each level is put in front of
      the list gathered so far, and the walk then moves to the parent. */
  function Chain(frame: Value): (r: seq<Value>)
    requires Truthy(frame)
    ensures r != [] && r[|r| - 1] == Prop(frame, "callFrames")
  {
    if frame.Object? && "parent" in frame.fields && Truthy(frame.fields["parent"]) then
      Chain(frame.fields["parent"]) + [Prop(frame, "callFrames")]
    else [Prop(frame, "callFrames")]
  }

  /** One list per level: the list's length is the stack's depth. */
  lemma {:induction false} ChainLength(frame: Value)
    requires Truthy(frame)
    ensures |Chain(frame)| == Depth(frame)
  {
    if Truthy(Parent(frame)) {
      ChainLength(Parent(frame));
    }
  }

  /** The list is oldest first: counted from its end, position `i` holds the
      `callFrames` of the level `i` steps up. */
  lemma {:induction false} ChainOrder(frame: Value, i: nat)
    requires Truthy(frame) && i < Depth(frame)
    ensures |Chain(frame)| == Depth(frame)
    ensures Chain(frame)[Depth(frame) - 1 - i] == Prop(Ancestor(frame, i), "callFrames")
  {
    ChainLength(frame);
    if i > 0 {
      ChainOrder(Parent(frame), i - 1);
    }
  }

  /** `getInitiatorFromStack(frame, frames)`: `''` for a missing stack,
      otherwise the array `frames` with the levels' `callFrames` put in
      front of it, the outermost ancestor first. */
  method GetInitiatorFromStack(frame: Value, frames: Value) returns (r: Value)
    requires frames.Undefined? || frames.Arr?
    ensures !Truthy(frame) ==> r == Str("")
    ensures Truthy(frame) ==> r == Arr(Chain(frame) + if frames.Arr? then frames.items else [])
    decreases frame
  {
    var acc := Or(frames, Arr([]));
    if !Truthy(frame) {
      return Str("");
    }
    acc := Arr([Prop(frame, "callFrames")] + acc.items);
    var parent := if frame.Object? && "parent" in frame.fields then frame.fields["parent"] else Undefined;
    if !Truthy(parent) {
      return acc;
    }
    r := GetInitiatorFromStack(parent, acc);
    assert Chain(frame) == Chain(parent) + [Prop(frame, "callFrames")];
  }

  // ---------------------------------------------------------------------
  // `getInitiator`: the first call frame with a script id.

  /** A list of call frames the scan can read: an array of values that are
      neither `null` nor `undefined`. */
  predicate CallFramesShape(callFrames: Value)
  {
    callFrames.Arr? && forall j :: 0 <= j < |callFrames.items| ==> !callFrames.items[j].Undefined? && !callFrames.items[j].Null?
  }

  predicate LevelsShape(levels: seq<Value>)
  {
    forall i :: 0 <= i < |levels| ==> CallFramesShape(levels[i])
  }

  /** `callFrames[j].scriptId`. */
  function ScriptIdAt(levels: seq<Value>, i: nat, j: nat): Value
    requires LevelsShape(levels) && i < |levels| && j < |levels[i].items|
  {
    Prop(levels[i].items[j], "scriptId")
  }

  /** The first truthy script id of one list of call frames. */
  function FirstInLevel(callFrames: seq<Value>): (r: Option<Value>)
    requires forall j :: 0 <= j < |callFrames| ==> !callFrames[j].Undefined? && !callFrames[j].Null?
    ensures r.Some? ==> Truthy(r.value)
  {
    if callFrames == [] then None
    else if Truthy(Prop(callFrames[0], "scriptId")) then Some(Prop(callFrames[0], "scriptId"))
    else FirstInLevel(callFrames[1..])
  }

  /** The first truthy script id in list-then-array order, `undefined` if
      there is none. */
  function FirstScriptId(levels: seq<Value>): (r: Value)
    requires LevelsShape(levels)
    ensures r == Undefined || Truthy(r)
  {
    if levels == [] then Undefined
    else
      match FirstInLevel(levels[0].items)
      case Some(id) => id
      case None => FirstScriptId(levels[1..])
  }

  /** An initiator `getInitiator` can resolve: one typed `parser` or
      `other` whatever its stack, and otherwise one whose stack levels hold
      arrays of call frames. */
  predicate Resolvable(initiator: Value)
  {
    && !initiator.Undefined? && !initiator.Null?
    && (StrictEquals(Prop(initiator, "type"), Str("parser")) || StrictEquals(Prop(initiator, "type"), Str("other")) ||
        !Truthy(Prop(initiator, "stack")) || LevelsShape(Chain(Prop(initiator, "stack"))))
  }

  /** The levels the scan runs over: none for a missing stack, whose `''`
      has length 0. */
  function LevelsOf(stack: Value): seq<Value>
  {
    if Truthy(stack) then Chain(stack) else []
  }

  /** What `getInitiator` returns. */
  function Resolve(initiator: Value): Value
    requires Resolvable(initiator)
  {
    if StrictEquals(Prop(initiator, "type"), Str("parser")) then Str("parser")
    else if StrictEquals(Prop(initiator, "type"), Str("other")) then Str("other")
    else FirstScriptId(LevelsOf(Prop(initiator, "stack")))
  }

  /** The scan finds the first call frame, in list-then-array order, whose
      script id is truthy; with none it gives `undefined`. */
  lemma {:induction false} FirstScriptIdIsFirst(levels: seq<Value>)
    requires LevelsShape(levels)
    ensures var r := FirstScriptId(levels);
            !Truthy(r) <==> forall i, j :: 0 <= i < |levels| && 0 <= j < |levels[i].items| ==> !Truthy(ScriptIdAt(levels, i, j))
    ensures var r := FirstScriptId(levels);
            Truthy(r) ==> (exists i, j :: 0 <= i < |levels| && 0 <= j < |levels[i].items| && r == ScriptIdAt(levels, i, j) &&
                             (forall i', j' :: 0 <= i' < |levels| && 0 <= j' < |levels[i'].items| && (i' < i || (i' == i && j' < j)) ==>
                                !Truthy(ScriptIdAt(levels, i', j'))))
  {
    if levels != [] {
      var rest := levels[1..];
      assert LevelsShape(rest) by {
        forall i | 0 <= i < |rest| ensures CallFramesShape(rest[i]) {
          assert rest[i] == levels[i + 1];
        }
      }
      FirstInLevelIsFirst(levels[0].items);
      match FirstInLevel(levels[0].items)
      case Some(id) =>
        var j :| 0 <= j < |levels[0].items| && id == Prop(levels[0].items[j], "scriptId") &&
                 forall j' :: 0 <= j' < j ==> !Truthy(Prop(levels[0].items[j'], "scriptId"));
        assert ScriptIdAt(levels, 0, j) == id;
      case None =>
        FirstScriptIdIsFirst(rest);
        forall i, j | 0 < i < |levels| && 0 <= j < |levels[i].items|
          ensures ScriptIdAt(levels, i, j) == ScriptIdAt(rest, i - 1, j)
        {
        }
        if Truthy(FirstScriptId(rest)) {
          var i, j :| 0 <= i < |rest| && 0 <= j < |rest[i].items| && FirstScriptId(rest) == ScriptIdAt(rest, i, j) &&
                      (forall i', j' :: 0 <= i' < |rest| && 0 <= j' < |rest[i'].items| && (i' < i || (i' == i && j' < j)) ==>
                         !Truthy(ScriptIdAt(rest, i', j')));
          assert ScriptIdAt(levels, i + 1, j) == FirstScriptId(rest);
          forall i', j' | 0 <= i' < |levels| && 0 <= j' < |levels[i'].items| && (i' < i + 1 || (i' == i + 1 && j' < j))
            ensures !Truthy(ScriptIdAt(levels, i', j'))
          {
            if i' > 0 {
              assert ScriptIdAt(levels, i', j') == ScriptIdAt(rest, i' - 1, j');
            }
          }
        }
    }
  }

  lemma {:induction false} FirstInLevelIsFirst(callFrames: seq<Value>)
    requires forall j :: 0 <= j < |callFrames| ==> !callFrames[j].Undefined? && !callFrames[j].Null?
    ensures FirstInLevel(callFrames).None? <==> forall j :: 0 <= j < |callFrames| ==> !Truthy(Prop(callFrames[j], "scriptId"))
    ensures FirstInLevel(callFrames).Some? ==>
              exists j :: 0 <= j < |callFrames| && FirstInLevel(callFrames).value == Prop(callFrames[j], "scriptId") &&
                Truthy(Prop(callFrames[j], "scriptId")) &&
                forall j' :: 0 <= j' < j ==> !Truthy(Prop(callFrames[j'], "scriptId"))
  {
    if callFrames != [] && !Truthy(Prop(callFrames[0], "scriptId")) {
      var rest := callFrames[1..];
      FirstInLevelIsFirst(rest);
      if FirstInLevel(rest).Some? {
        var j :| 0 <= j < |rest| && FirstInLevel(rest).value == Prop(rest[j], "scriptId") &&
                 Truthy(Prop(rest[j], "scriptId")) &&
                 forall j' :: 0 <= j' < j ==> !Truthy(Prop(rest[j'], "scriptId"));
        assert callFrames[j + 1] == rest[j];
        forall j' | 0 <= j' < j + 1 ensures !Truthy(Prop(callFrames[j'], "scriptId")) {
          if j' > 0 {
            assert callFrames[j'] == rest[j' - 1];
          }
        }
      } else {
        forall j | 0 <= j < |callFrames| ensures !Truthy(Prop(callFrames[j], "scriptId")) {
          if j > 0 {
            assert callFrames[j] == rest[j - 1];
          }
        }
      }
    }
  }

  /** An initiator typed `parser` or `other` resolves to its type, and
      nothing about its stack is needed. */
  lemma TypedInitiator(initiator: Value)
    requires !initiator.Undefined? && !initiator.Null?
    requires StrictEquals(Prop(initiator, "type"), Str("parser")) || StrictEquals(Prop(initiator, "type"), Str("other"))
    ensures Resolvable(initiator)
    ensures Resolve(initiator) == Prop(initiator, "type")
  {
  }

  /** Without a stack there is no initiator, and no error either. */
  lemma NoStackNoInitiator(initiator: Value)
    requires !initiator.Undefined? && !initiator.Null? && !Truthy(Prop(initiator, "stack"))
    requires !StrictEquals(Prop(initiator, "type"), Str("parser")) && !StrictEquals(Prop(initiator, "type"), Str("other"))
    ensures Resolvable(initiator) && Resolve(initiator) == Undefined
  {
  }

  /** `getInitiator(initiator)`: the two typed initiators by name, otherwise
      a scan of the stack levels, outermost first, returning the first
      truthy `scriptId`. */
  method GetInitiator(initiator: Value) returns (r: Value)
    requires Resolvable(initiator)
    ensures r == Resolve(initiator)
  {
    if StrictEquals(Prop(initiator, "type"), Str("parser")) {
      return Str("parser");
    } else if StrictEquals(Prop(initiator, "type"), Str("other")) {
      return Str("other");
    }
    var frames := GetInitiatorFromStack(Prop(initiator, "stack"), Undefined);
    var levels := if frames.Arr? then frames.items else [];
    assert levels == LevelsOf(Prop(initiator, "stack"));
    var i := 0;
    while i < |levels|
      invariant 0 <= i <= |levels|
      invariant FirstScriptId(levels) == FirstScriptId(levels[i..])
    {
      var callFrames := levels[i].items;
      var j := 0;
      while j < |callFrames|
        invariant 0 <= j <= |callFrames|
        invariant FirstInLevel(callFrames) == FirstInLevel(callFrames[j..])
      {
        if Truthy(Prop(callFrames[j], "scriptId")) {
          return Prop(callFrames[j], "scriptId");
        }
        assert callFrames[j..][1..] == callFrames[j + 1..];
        j := j + 1;
      }
      assert levels[i..][1..] == levels[i + 1..];
      i := i + 1;
    }
    return Undefined;
  }

  // ---------------------------------------------------------------------
  // `getResourcesData`: one table row per request.

  /** What `new URL(request.url)` yields: the parts the row keeps. */
  datatype UrlParts = UrlParts(host: Value, pathname: Value, searchParams: Value, hash: string)

  /** `v.length` on a value that is neither `null` nor `undefined`. */
  function LengthOf(v: Value): Value
    requires !v.Undefined? && !v.Null?
  {
    match v
    case Str(s) => Num(|s| as real)
    case Arr(items) => Num(|items| as real)
    case Object(f) => Get(f, "length")
    case _ => Undefined
  }

  /** `Array.from(s)` on a string: its characters, one string each. */
  function Characters(s: string): (r: Value)
    ensures r.Arr? && |r.items| == |s|
    ensures forall i :: 0 <= i < |s| ==> r.items[i] == Str([s[i]])
  {
    Arr(seq(|s|, i requires 0 <= i < |s| => Str([s[i]])))
  }

  /** A request the row mapping can read: an initiator `getInitiator` can
      resolve, a frame and a URL. */
  predicate RowReady(request: Record)
  {
    && Resolvable(Get(request, "initiator"))
    && !Get(request, "frame").Undefined? && !Get(request, "frame").Null?
    && !Get(request, "url").Undefined? && !Get(request, "url").Null?
  }

  /** `request.response || request.redirectResponse || {}`. */
  function ResponseOf(request: Record): (r: Value)
    ensures Truthy(r)
    ensures Truthy(Get(request, "response")) ==> r == request["response"]
    ensures !Truthy(Get(request, "response")) && Truthy(Get(request, "redirectResponse")) ==> r == request["redirectResponse"]
    ensures !Truthy(Get(request, "response")) && !Truthy(Get(request, "redirectResponse")) ==> r == Object(map[])
  {
    Or(Or(Get(request, "response"), Get(request, "redirectResponse")), Object(map[]))
  }


  /** A row of the resources table. The four URL columns are set only when
      the URL parses, so they are kept together as an option. */
  datatype ResourceRow = ResourceRow(
    urlColumns: Option<UrlColumns>,
    frameId: Value,
    frameURL: Value,
    timestamp: Value,
    initiator: Value,
    initiatorStack: Value,
    reqUrlLength: Value,
    reqMethod: Value,
    reqType: Value,
    reqHeaders: Value,
    reqPostData: Value,
    reqPostDataLength: Value,
    resStatus: Value,
    resLength: Value,
    resMimeType: Value,
    resIp: Value,
    resIpCountry: Value,
    resIpTimezone: Value,
    resPort: Value,
    resHeaders: Value,
    certCipher: Value,
    certIssuer: Value,
    certSanList: Value)

  /** `host`, `pathname`, `queryParams` and `hashParams`. */
  datatype UrlColumns = UrlColumns(host: Value, pathname: Value, queryParams: Value, hashParams: Value)

  /** The row of one request; `parseUrl` stands for `new URL`, `None` when
      it throws, in which case the URL columns are left out. */
  function Row(request: Record, parseUrl: Value -> Option<UrlParts>): (r: ResourceRow)
    requires RowReady(request)
  {
    var response := ResponseOf(request);
    // `response && response.securityDetails || {}`, where `response` is truthy
    var security := PropOr(response, "securityDetails");
    var postData := Get(request, "postData");
    var url := parseUrl(Get(request, "url"));
    ResourceRow(
      if url.Some? then Some(UrlColumns(url.value.host, url.value.pathname, url.value.searchParams, Characters(url.value.hash)))
      else None,
      Get(request, "frameId"),
      Prop(Get(request, "frame"), "url"),
      Get(request, "timestamp"),
      Resolve(Get(request, "initiator")),
      Get(request, "initiator"),
      LengthOf(Get(request, "url")),
      Get(request, "method"),
      Get(request, "type"),
      Get(request, "headers"),
      Or(postData, Str("-")),
      Or(if Truthy(postData) then LengthOf(postData) else postData, Str("-")),
      Prop(response, "status"),
      Prop(response, "encodedDataLength"),
      Prop(response, "mimeType"),
      Prop(response, "remoteIPAddress"),
      Prop(response, "ipCountry"),
      Prop(response, "timezone"),
      Prop(response, "remotePort"),
      Prop(response, "headers"),
      Or(Prop(security, "cipher"), Str("")),
      Or(Prop(security, "issuer"), Str("")),
      Or(Prop(security, "sanList"), Arr([])))
  }

  /** The URL columns are there exactly when the URL parses, the hash split
      into its characters. */
  lemma RowUrlColumns(request: Record, parseUrl: Value -> Option<UrlParts>)
    requires RowReady(request)
    ensures Row(request, parseUrl).urlColumns.Some? <==> parseUrl(Get(request, "url")).Some?
    ensures parseUrl(Get(request, "url")).Some? ==>
              Row(request, parseUrl).urlColumns.value.hashParams == Characters(parseUrl(Get(request, "url")).value.hash)
  {
  }

  /** Every row names its request's initiator as `getInitiator` resolves it,
      and falls back on the defaults: `'-'` for missing post data and its
      length, `''` and `[]` for missing certificate fields, the redirect
      response and then `{}` for a missing response. */
  lemma RowDefaults(request: Record, parseUrl: Value -> Option<UrlParts>)
    requires RowReady(request)
    ensures var row := Row(request, parseUrl);
            && row.initiator == Resolve(Get(request, "initiator"))
            && (!Truthy(Get(request, "postData")) ==> row.reqPostData == Str("-") && row.reqPostDataLength == Str("-"))
            && (Truthy(Get(request, "postData")) ==> row.reqPostData == request["postData"])
            && (!Truthy(Get(request, "response")) && !Truthy(Get(request, "redirectResponse")) ==>
                  row.resStatus == Undefined && row.resHeaders == Undefined)
            && var security := PropOr(ResponseOf(request), "securityDetails");
            && (Truthy(Prop(security, "cipher")) ==> row.certCipher == Prop(security, "cipher"))
            && (!Truthy(Prop(security, "cipher")) ==> row.certCipher == Str(""))
            && (Truthy(Prop(security, "issuer")) ==> row.certIssuer == Prop(security, "issuer"))
            && (!Truthy(Prop(security, "issuer")) ==> row.certIssuer == Str(""))
            && (Truthy(Prop(security, "sanList")) ==> row.certSanList == Prop(security, "sanList"))
            && (!Truthy(Prop(security, "sanList")) ==> row.certSanList == Arr([]))
  {
  }

  /** The response columns are read from the chosen response: `response`,
      else `redirectResponse`, else `{}`. */
  lemma RowResponseColumns(request: Record, parseUrl: Value -> Option<UrlParts>)
    requires RowReady(request)
    ensures var row := Row(request, parseUrl);
            var response := ResponseOf(request);
            && row.resStatus == Prop(response, "status")
            && row.resLength == Prop(response, "encodedDataLength")
            && row.resMimeType == Prop(response, "mimeType")
            && row.resIp == Prop(response, "remoteIPAddress")
            && row.resIpCountry == Prop(response, "ipCountry")
            && row.resIpTimezone == Prop(response, "timezone")
            && row.resPort == Prop(response, "remotePort")
            && row.resHeaders == Prop(response, "headers")
  {
  }

  /** `getResourcesData(data)`: `data.resources.map(...)`. */
  function GetResourcesData(resources: seq<Record>, parseUrl: Value -> Option<UrlParts>): (r: seq<ResourceRow>)
    requires forall i :: 0 <= i < |resources| ==> RowReady(resources[i])
    ensures |r| == |resources|
    ensures forall i :: 0 <= i < |resources| ==> r[i] == Row(resources[i], parseUrl)
  {
    seq(|resources|, i requires 0 <= i < |resources| => Row(resources[i], parseUrl))
  }
}
