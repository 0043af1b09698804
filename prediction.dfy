// The prediction endpoint (chat responses and text completions) and the
// started/finished/error lifecycle every prediction stream shares.

module Prediction {
  import opened JsonValue
  import opened SdkErrors
  import opened Endpoints
  import PyStrings

  /* ---------------------------------------------------------------------
   * PredictionResult
   * ------------------------------------------------------------------- */

  /** `parsed`: the very content string, or the dict a structured response decoded to. */
  datatype Parsed = RawContent | ParsedDict(dict: Entries)

  datatype PredictionResult = PredictionResult(
    content: string, parsed: Parsed, structured: bool,
    stats: Json, modelInfo: Json, loadConfig: Json, predictionConfig: Json)
  {
    /** The value of `parsed`. */
    function ParsedValue(): Json
    {
      if parsed.RawContent? then JStr(content) else JObject(parsed.dict)
    }
  }

  /** PredictionResult(...) with `__post_init__`: structured when `parsed is not content`. */
  function MakeResult(content: string, parsed: Parsed, stats: Json, modelInfo: Json, loadConfig: Json,
                      predictionConfig: Json): (r: PredictionResult)
    ensures r.content == content && r.parsed == parsed
    ensures r.structured <==> r.parsed != RawContent
  {
    PredictionResult(content, parsed, parsed != RawContent, stats, modelInfo, loadConfig, predictionConfig)
  }

  /**
   * The parse a successful prediction attempts: only a structured request
   * that was not cancelled is decoded, and only a dict is kept. `jsonLoads`
   * is `json.loads`, with None for a decoding error.
   */
  function ParseContent(structured: bool, isCancelled: bool, content: string, jsonLoads: string -> Option<Json>)
    : (parsed: Parsed)
    ensures parsed != RawContent <==> structured && !isCancelled && jsonLoads(content).Some? && jsonLoads(content).value.JObject?
    ensures parsed != RawContent ==> jsonLoads(content) == Some(JObject(parsed.dict))
  {
    if structured && !isCancelled then
      match jsonLoads(content)
      case Some(JObject(d)) => ParsedDict(d)
      case _ => RawContent
    else RawContent
  }

  /* ---------------------------------------------------------------------
   * PredictionEndpoint.iter_message_events
   * ------------------------------------------------------------------- */

  datatype PredictionEvent =
    | PrepProgress(progress: real)
    | Fragment(text: string, fragment: Entries)
    | ToolCall(request: Json)
    | ToolCallAborted
    | PredictionFinished

  datatype PredictionState = PredictionState(
    isCancelled: bool, promptProgress: real, fragments: seq<string>,
    isFinished: bool, result: Option<PredictionResult>)

  /** What handling one payload yields: the events, then the exception that ended it, if any. */
  datatype Emitted = Emitted(events: seq<PredictionEvent>, raised: Option<Error>)

  datatype PredictionStep = PredictionStep(state: PredictionState, emitted: Emitted)

  /**
   * _update_prompt_processing_progress: a value no greater than the last is
   * dropped; with a callback, the first positive value is preceded by 0.0.
   */
  function UpdatePromptProgress(hasCallback: bool, last: real, progress: real): (r: (real, seq<PredictionEvent>))
    ensures progress <= last ==> r == (last, [])
    ensures progress > last ==> r.0 == progress
    ensures !hasCallback ==> r.1 == []
    ensures hasCallback && progress > last ==>
              r.1 == (if last < 0.0 < progress then [PrepProgress(0.0)] else []) + [PrepProgress(progress)]
    ensures forall i :: 0 <= i < |r.1| ==> r.1[i] == PrepProgress(0.0) || r.1[i] == PrepProgress(progress)
  {
    if progress <= last then (last, [])
    else if !hasCallback then (progress, [])
    else (progress, (if last < 0.0 < progress then [PrepProgress(0.0)] else []) + [PrepProgress(progress)])
  }

  /** The `success` shape: its four reports, when all are present. */
  function SuccessFields(contents: Entries): Option<(Json, Json, Json, Json)>
  {
    var m := JObject(contents);
    if TypeIs(m, "success") && Get(m, "stats").Some? && Get(m, "modelInfo").Some?
       && Get(m, "loadModelConfig").Some? && Get(m, "predictionConfig").Some? then
      Some((Get(m, "stats").value, Get(m, "modelInfo").value, Get(m, "loadModelConfig").value,
            Get(m, "predictionConfig").value))
    else None
  }

  /** The fragment dict of a `fragment` payload. */
  function FragmentOf(contents: Entries): Option<Entries>
  {
    if !TypeIs(JObject(contents), "fragment") then None
    else match Get(JObject(contents), "fragment")
      case Some(JObject(f)) => Some(f)
      case _ => None
  }

  function Nothing(s: PredictionState): PredictionStep
  {
    PredictionStep(s, Emitted([], None))
  }

  function Raise(s: PredictionState, e: Error): PredictionStep
  {
    PredictionStep(s, Emitted([], Some(e)))
  }

  /** Tokens only follow prompt processing, so a fragment first reports processing complete. */
  function CompleteProcessing(hasPromptCallback: bool, last: real): (r: (real, seq<PredictionEvent>))
    ensures r.0 == if last < 1.0 then 1.0 else last
    ensures NoFragments(r.1)
  {
    if last < 1.0 then UpdatePromptProgress(hasPromptCallback, last, 1.0) else (last, [])
  }

  /** A fragment payload on an uncancelled prediction. */
  function FragmentStep(hasPromptCallback: bool, s: PredictionState, f: Entries): PredictionStep
  {
    var (progress, events) := CompleteProcessing(hasPromptCallback, s.promptProgress);
    var content: Option<Json> := Lookup(f, "content");
    match content
    case Some(JStr(text)) =>
      PredictionStep(s.(promptProgress := progress, fragments := s.fragments + [text]),
                     Emitted(events + [Fragment(text, f)], None))
    case _ =>
      // LlmPredictionFragment requires a string "content"
      PredictionStep(s.(promptProgress := progress), Emitted(events, Some(Builtin(ValidationError))))
  }

  /** The success payload: the result is the accumulated text, parsed when asked for. */
  function SuccessStep(structured: bool, s: PredictionState, reports: (Json, Json, Json, Json),
                       jsonLoads: string -> Option<Json>): PredictionStep
  {
    var content := PyStrings.Concat(s.fragments);
    var parsed := ParseContent(structured, s.isCancelled, content, jsonLoads);
    var result := MakeResult(content, parsed, reports.0, reports.1, reports.2, reports.3);
    PredictionStep(s.(isFinished := true, result := Some(result)), Emitted([PredictionFinished], None))
  }

  /** A fragment payload that an uncancelled prediction takes in. */
  predicate Accepted(s: PredictionState, contents: Option<Entries>)
  {
    contents.Some? && FragmentOf(contents.value).Some? && !s.isCancelled
  }

  predicate NoFragments(events: seq<PredictionEvent>)
  {
    forall i :: 0 <= i < |events| ==> !events[i].Fragment?
  }

  /** PredictionEndpoint.iter_message_events */
  function PredictionNext(structured: bool, hasPromptCallback: bool, s: PredictionState, contents: Option<Entries>,
                          jsonLoads: string -> Option<Json>): (r: PredictionStep)
    ensures !Accepted(s, contents) ==> r.state.fragments == s.fragments && NoFragments(r.emitted.events)
  {
    match contents
    case None => Raise(s, ChannelClosedError)
    case Some(c) =>
      var m := JObject(c);
      if FragmentOf(c).Some? then
        if s.isCancelled then Nothing(s) else FragmentStep(hasPromptCallback, s, FragmentOf(c).value)
      else if TypeIs(m, "promptProcessingProgress") && Get(m, "progress").Some? then
        if s.isCancelled then Nothing(s)
        else match NumberValue(Get(m, "progress").value)
          case None => Raise(s, Builtin(TypeError))
          case Some(p) =>
            var (progress, events) := UpdatePromptProgress(hasPromptCallback, s.promptProgress, p);
            PredictionStep(s.(promptProgress := progress), Emitted(events, None))
      else if TypeIs(m, "toolCallGenerationStart") then Nothing(s)
      else if TypeIs(m, "toolCallGenerationEnd") && Get(m, "toolCallRequest").Some? then
        PredictionStep(s, Emitted([ToolCall(Get(m, "toolCallRequest").value)], None))
      else if TypeIs(m, "toolCallGenerationFailed") then PredictionStep(s, Emitted([ToolCallAborted], None))
      else if TypeIs(m, "error") && Get(m, "error").Some? && Get(m, "error").value.JObject? then
        Raise(s, ServerErrorWithDetails(Prediction, Get(m, "error").value.entries))
      else if SuccessFields(c).Some? then SuccessStep(structured, s, SuccessFields(c).value, jsonLoads)
      else Raise(s, UnknownMessageError)
  }

  /* ---------------------------------------------------------------------
   * PredictionEndpoint.handle_rx_event
   * ------------------------------------------------------------------- */

  /** The user callbacks an event invokes, in order. */
  datatype Notification =
    | PromptProgressCallback(progress: real)
    | FirstTokenCallback
    | FragmentCallback(text: string)
    | InvalidToolRequestCallback
    | MessageCallback(response: string)

  datatype Handled = Handled(onFirstToken: bool, notified: seq<Notification>, raised: Option<Error>)

  /**
   * handle_rx_event: the first fragment also fires the first-token
   * callback, which is then dropped; an aborted tool call always raises,
   * after letting the invalid-request callback see it.
   */
  function HandleEvent(hasPromptCallback: bool, hasFragmentCallback: bool, hasInvalidToolCallback: bool,
                       hasMessageCallback: bool, onFirstToken: bool, result: Option<PredictionResult>,
                       event: PredictionEvent): (h: Handled)
  {
    match event
    case PrepProgress(p) =>
      // emitted only when a callback is registered, which the source asserts
      if hasPromptCallback then Handled(onFirstToken, [PromptProgressCallback(p)], None)
      else Handled(onFirstToken, [], Some(Builtin(AssertionError)))
    case Fragment(text, _) =>
      Handled(false, (if onFirstToken then [FirstTokenCallback] else [])
                     + (if hasFragmentCallback then [FragmentCallback(text)] else []), None)
    case ToolCall(_) => Handled(onFirstToken, [], None)
    case ToolCallAborted =>
      Handled(onFirstToken, if hasInvalidToolCallback then [InvalidToolRequestCallback] else [],
              Some(ServerError(Prediction, None)))
    case PredictionFinished =>
      if !hasMessageCallback then Handled(onFirstToken, [], None)
      else if result.None? then Handled(onFirstToken, [], Some(Builtin(AssertionError)))
      else Handled(onFirstToken, [MessageCallback(result.value.content)], None)
  }

  /** The prediction endpoint as the source keeps it. */
  class PredictionEndpoint {
    const structured: bool
    const hasPromptCallback: bool
    const hasFragmentCallback: bool
    const hasInvalidToolCallback: bool
    const hasMessageCallback: bool
    var isCancelled: bool
    var promptProgress: real
    var fragments: seq<string>
    var isFinished: bool
    var result: Option<PredictionResult>
    var onFirstToken: bool

    function State(): PredictionState
      reads this
    {
      PredictionState(isCancelled, promptProgress, fragments, isFinished, result)
    }

    constructor (structured: bool, hasPromptCallback: bool, hasFirstTokenCallback: bool, hasFragmentCallback: bool,
                 hasInvalidToolCallback: bool, hasMessageCallback: bool)
      ensures this.structured == structured && this.hasPromptCallback == hasPromptCallback
      ensures this.hasFragmentCallback == hasFragmentCallback && this.hasInvalidToolCallback == hasInvalidToolCallback
      ensures this.hasMessageCallback == hasMessageCallback && onFirstToken == hasFirstTokenCallback
      ensures State() == PredictionState(false, -1.0, [], false, None)
    {
      this.structured := structured;
      this.hasPromptCallback := hasPromptCallback;
      this.hasFragmentCallback := hasFragmentCallback;
      this.hasInvalidToolCallback := hasInvalidToolCallback;
      this.hasMessageCallback := hasMessageCallback;
      onFirstToken := hasFirstTokenCallback;
      isCancelled := false;
      promptProgress := -1.0;
      fragments := [];
      isFinished := false;
      result := None;
    }

    /** _update_prompt_processing_progress */
    method PromptProgress(progress: real) returns (events: seq<PredictionEvent>)
      modifies this
      ensures (promptProgress, events) == UpdatePromptProgress(hasPromptCallback, old(promptProgress), progress)
      ensures isCancelled == old(isCancelled) && fragments == old(fragments)
      ensures isFinished == old(isFinished) && result == old(result) && onFirstToken == old(onFirstToken)
    {
      var last := promptProgress;
      events := [];
      if progress <= last {
        return;
      }
      promptProgress := progress;
      if hasPromptCallback {
        if last < 0.0 < progress {
          events := [PrepProgress(0.0)];
        }
        events := events + [PrepProgress(progress)];
      }
    }

    /** iter_message_events, consumed to the end. */
    method IterMessageEvents(contents: Option<Entries>, jsonLoads: string -> Option<Json>) returns (e: Emitted)
      modifies this
      ensures State() == PredictionNext(structured, hasPromptCallback, old(State()), contents, jsonLoads).state
      ensures e == PredictionNext(structured, hasPromptCallback, old(State()), contents, jsonLoads).emitted
      ensures onFirstToken == old(onFirstToken)
    {
      if contents.None? {
        return Emitted([], Some(ChannelClosedError));
      }
      var c := contents.value;
      var m := JObject(c);
      var fragment := FragmentOf(c);
      if fragment.Some? {
        if isCancelled {
          return Emitted([], None);
        }
        e := ReceiveFragment(fragment.value);
      } else if TypeIs(m, "promptProcessingProgress") && Get(m, "progress").Some? {
        if isCancelled {
          return Emitted([], None);
        }
        var p := NumberValue(Get(m, "progress").value);
        if p.None? {
          return Emitted([], Some(Builtin(TypeError)));
        }
        var events := PromptProgress(p.value);
        e := Emitted(events, None);
      } else if TypeIs(m, "toolCallGenerationStart") {
        e := Emitted([], None);
      } else if TypeIs(m, "toolCallGenerationEnd") && Get(m, "toolCallRequest").Some? {
        e := Emitted([ToolCall(Get(m, "toolCallRequest").value)], None);
      } else if TypeIs(m, "toolCallGenerationFailed") {
        e := Emitted([ToolCallAborted], None);
      } else if TypeIs(m, "error") && Get(m, "error").Some? && Get(m, "error").value.JObject? {
        e := Emitted([], Some(ServerErrorWithDetails(Prediction, Get(m, "error").value.entries)));
      } else {
        var reports := SuccessFields(c);
        if reports.None? {
          return Emitted([], Some(UnknownMessageError));
        }
        e := Finish(reports.value, jsonLoads);
      }
    }

    /** The fragment branch of iter_message_events. */
    method ReceiveFragment(f: Entries) returns (e: Emitted)
      modifies this
      ensures State() == FragmentStep(hasPromptCallback, old(State()), f).state
      ensures e == FragmentStep(hasPromptCallback, old(State()), f).emitted
      ensures onFirstToken == old(onFirstToken)
    {
      var events := [];
      if promptProgress < 1.0 {
        events := PromptProgress(1.0);
      }
      var text: Option<Json> := Lookup(f, "content");
      if !(text.Some? && text.value.JStr?) {
        return Emitted(events, Some(Builtin(ValidationError)));
      }
      fragments := fragments + [text.value.s];
      e := Emitted(events + [Fragment(text.value.s, f)], None);
    }

    /** The success branch of iter_message_events. */
    method Finish(reports: (Json, Json, Json, Json), jsonLoads: string -> Option<Json>) returns (e: Emitted)
      modifies this
      ensures State() == SuccessStep(structured, old(State()), reports, jsonLoads).state
      ensures e == SuccessStep(structured, old(State()), reports, jsonLoads).emitted
      ensures onFirstToken == old(onFirstToken)
    {
      var content := PyStrings.Concat(fragments);
      var parsed := ParseContent(structured, isCancelled, content, jsonLoads);
      isFinished := true;
      result := Some(MakeResult(content, parsed, reports.0, reports.1, reports.2, reports.3));
      e := Emitted([PredictionFinished], None);
    }

    /** handle_rx_event */
    method HandleRxEvent(event: PredictionEvent) returns (notified: seq<Notification>, raised: Option<Error>)
      modifies this
      ensures Handled(onFirstToken, notified, raised)
        == HandleEvent(hasPromptCallback, hasFragmentCallback, hasInvalidToolCallback, hasMessageCallback,
                       old(onFirstToken), result, event)
      ensures State() == old(State())
    {
      notified := [];
      raised := None;
      match event {
        case PrepProgress(p) =>
          if !hasPromptCallback {
            raised := Some(Builtin(AssertionError));
          } else {
            notified := [PromptProgressCallback(p)];
          }
        case Fragment(text, _) =>
          if onFirstToken {
            notified := [FirstTokenCallback];
            onFirstToken := false;
          }
          if hasFragmentCallback {
            notified := notified + [FragmentCallback(text)];
          }
        case ToolCall(_) =>
        case ToolCallAborted =>
          if hasInvalidToolCallback {
            notified := [InvalidToolRequestCallback];
          }
          raised := Some(ServerError(Prediction, None));
        case PredictionFinished =>
          if hasMessageCallback {
            if result.None? {
              raised := Some(Builtin(AssertionError));
            } else {
              notified := [MessageCallback(result.value.content)];
            }
          }
      }
    }

    /** mark_cancelled: later fragments and progress updates are dropped. */
    method MarkCancelled()
      modifies this
      ensures State() == old(State()).(isCancelled := true)
      ensures onFirstToken == old(onFirstToken)
    {
      isCancelled := true;
    }

    /** result() */
    function Result(): (r: Result<PredictionResult>)
      reads this
      ensures r.Ok? <==> isFinished && result.Some?
      ensures !isFinished ==> r == Err(RuntimeError)
    {
      ReadResult(isFinished, result)
    }
  }

  /* ---------------------------------------------------------------------
   * Properties of the prediction endpoint
   * ------------------------------------------------------------------- */

  /** After cancellation, fragment and progress payloads produce nothing and accumulate nothing. */
  lemma CancelledDropsTokens(structured: bool, hasPromptCallback: bool, s: PredictionState, c: Entries,
                             jsonLoads: string -> Option<Json>)
    requires s.isCancelled
    requires FragmentOf(c).Some? || (TypeIs(JObject(c), "promptProcessingProgress") && Get(JObject(c), "progress").Some?)
    ensures PredictionNext(structured, hasPromptCallback, s, Some(c), jsonLoads) == PredictionStep(s, Emitted([], None))
  {
  }

  /** An accepted fragment's text is appended to the accumulated text, and reported after any progress. */
  lemma FragmentAccumulates(hasPromptCallback: bool, s: PredictionState, f: Entries, text: string)
    requires Lookup(f, "content") == Some(JStr(text))
    ensures var step := FragmentStep(hasPromptCallback, s, f);
      && step.state.fragments == s.fragments + [text]
      && step.emitted.raised.None?
      && step.emitted.events[|step.emitted.events| - 1] == Fragment(text, f)
      && step.state.promptProgress >= 1.0
  {
  }

  /**
   * On success the content is the accumulated text; it is parsed only for
   * a structured, uncancelled request, and `structured` holds exactly when
   * a dict was decoded.
   */
  lemma SuccessResult(structured: bool, s: PredictionState, reports: (Json, Json, Json, Json),
                      jsonLoads: string -> Option<Json>)
    ensures var step := SuccessStep(structured, s, reports, jsonLoads);
      var r := step.state.result.value;
      && step.state.isFinished && step.state.result.Some?
      && r.content == PyStrings.Concat(s.fragments)
      && (r.structured <==> r.parsed != RawContent)
      && (r.structured ==> structured && !s.isCancelled && jsonLoads(r.content) == Some(r.ParsedValue()))
      && (!r.structured ==> r.ParsedValue() == JStr(r.content))
  {
  }

  /* Runs over a stream of payloads. */

  datatype PredictionRun = PredictionRun(state: PredictionState, events: seq<PredictionEvent>, raised: Option<Error>)

  /** Feeding payloads in turn; an exception ends the run after the events before it. */
  function RunPrediction(structured: bool, hasPromptCallback: bool, s: PredictionState, payloads: seq<Option<Entries>>,
                         jsonLoads: string -> Option<Json>): PredictionRun
    decreases |payloads|
  {
    if payloads == [] then PredictionRun(s, [], None)
    else
      var step := PredictionNext(structured, hasPromptCallback, s, payloads[0], jsonLoads);
      if step.emitted.raised.Some? then PredictionRun(step.state, step.emitted.events, step.emitted.raised)
      else
        var rest := RunPrediction(structured, hasPromptCallback, step.state, payloads[1..], jsonLoads);
        PredictionRun(rest.state, step.emitted.events + rest.events, rest.raised)
  }

  /** The texts of the fragment events, in order. */
  function FragmentTexts(events: seq<PredictionEvent>): seq<string>
  {
    if events == [] then []
    else
      var last := events[|events| - 1];
      FragmentTexts(events[..|events| - 1]) + (if last.Fragment? then [last.text] else [])
  }

  lemma {:induction false} FragmentTextsAppend(a: seq<PredictionEvent>, b: seq<PredictionEvent>)
    ensures FragmentTexts(a + b) == FragmentTexts(a) + FragmentTexts(b)
    decreases |b|
  {
    if b == [] {
      assert a + b == a;
    } else {
      var init := b[..|b| - 1];
      var last := b[|b| - 1];
      var tail := if last.Fragment? then [last.text] else [];
      assert (a + b)[..|a + b| - 1] == a + init;
      FragmentTextsAppend(a, init);
      calc {
        FragmentTexts(a + b);
        FragmentTexts(a + init) + tail;
        (FragmentTexts(a) + FragmentTexts(init)) + tail;
        FragmentTexts(a) + (FragmentTexts(init) + tail);
      }
    }
  }

  lemma {:induction false} NoFragmentTexts(events: seq<PredictionEvent>)
    requires NoFragments(events)
    ensures FragmentTexts(events) == []
    decreases |events|
  {
    if events != [] {
      NoFragmentTexts(events[..|events| - 1]);
    }
  }

  /** An accepted fragment adds to the accumulated text exactly the fragment texts it reports. */
  lemma FragmentStepAccumulates(hasPromptCallback: bool, s: PredictionState, f: Entries)
    ensures var step := FragmentStep(hasPromptCallback, s, f);
      step.state.fragments == s.fragments + FragmentTexts(step.emitted.events)
  {
    var (progress, events) := CompleteProcessing(hasPromptCallback, s.promptProgress);
    NoFragmentTexts(events);
    var content: Option<Json> := Lookup(f, "content");
    if content.Some? && content.value.JStr? {
      var text := content.value.s;
      var step := FragmentStep(hasPromptCallback, s, f);
      assert step.emitted.events == events + [Fragment(text, f)];
      assert step.state.fragments == s.fragments + [text];
      FragmentTextsAppend(events, [Fragment(text, f)]);
      assert [Fragment(text, f)][..0] == [];
      assert FragmentTexts(step.emitted.events) == [text];
    } else {
      var step := FragmentStep(hasPromptCallback, s, f);
      assert step.emitted.events == events;
      assert step.state.fragments == s.fragments;
      assert s.fragments + [] == s.fragments;
    }
  }

  /** One payload adds to the accumulated text exactly the texts of the fragment events it yields. */
  lemma StepAccumulates(structured: bool, hasPromptCallback: bool, s: PredictionState, contents: Option<Entries>,
                        jsonLoads: string -> Option<Json>)
    ensures var step := PredictionNext(structured, hasPromptCallback, s, contents, jsonLoads);
      step.state.fragments == s.fragments + FragmentTexts(step.emitted.events)
  {
    var step := PredictionNext(structured, hasPromptCallback, s, contents, jsonLoads);
    if Accepted(s, contents) {
      FragmentStepAccumulates(hasPromptCallback, s, FragmentOf(contents.value).value);
    } else {
      NoFragmentTexts(step.emitted.events);
    }
  }

  lemma ComposeAccumulation(before: seq<string>, mid: seq<string>, after: seq<string>,
                            first: seq<PredictionEvent>, second: seq<PredictionEvent>)
    requires mid == before + FragmentTexts(first)
    requires after == mid + FragmentTexts(second)
    ensures after == before + FragmentTexts(first + second)
  {
    FragmentTextsAppend(first, second);
  }

  /**
   * Over any run, the accumulated text grows by exactly the fragment texts
   * reported, in order; so a success payload's content is the
   * concatenation of every fragment reported before it.
   */
  lemma {:induction false} RunAccumulates(structured: bool, hasPromptCallback: bool, s: PredictionState,
                                          payloads: seq<Option<Entries>>, jsonLoads: string -> Option<Json>)
    ensures var run := RunPrediction(structured, hasPromptCallback, s, payloads, jsonLoads);
      run.state.fragments == s.fragments + FragmentTexts(run.events)
    decreases |payloads|
  {
    if payloads != [] {
      var step := PredictionNext(structured, hasPromptCallback, s, payloads[0], jsonLoads);
      StepAccumulates(structured, hasPromptCallback, s, payloads[0], jsonLoads);
      if step.emitted.raised.None? {
        var rest := RunPrediction(structured, hasPromptCallback, step.state, payloads[1..], jsonLoads);
        assert RunPrediction(structured, hasPromptCallback, s, payloads, jsonLoads)
          == PredictionRun(rest.state, step.emitted.events + rest.events, rest.raised);
        RunAccumulates(structured, hasPromptCallback, step.state, payloads[1..], jsonLoads);
        ComposeAccumulation(s.fragments, step.state.fragments, rest.state.fragments, step.emitted.events, rest.events);
      }
    } else {
      assert s.fragments + [] == s.fragments;
    }
  }

  /* The first-token callback fires at most once. */

  datatype HandledRun = HandledRun(onFirstToken: bool, notified: seq<Notification>, raised: Option<Error>)

  /** handle_rx_event over a sequence of events; the first exception ends it. */
  function HandleEvents(hasPromptCallback: bool, hasFragmentCallback: bool, hasInvalidToolCallback: bool,
                        hasMessageCallback: bool, onFirstToken: bool, result: Option<PredictionResult>,
                        events: seq<PredictionEvent>): HandledRun
    decreases |events|
  {
    if events == [] then HandledRun(onFirstToken, [], None)
    else
      var h := HandleEvent(hasPromptCallback, hasFragmentCallback, hasInvalidToolCallback, hasMessageCallback,
                           onFirstToken, result, events[0]);
      if h.raised.Some? then HandledRun(h.onFirstToken, h.notified, h.raised)
      else
        var rest := HandleEvents(hasPromptCallback, hasFragmentCallback, hasInvalidToolCallback, hasMessageCallback,
                                 h.onFirstToken, result, events[1..]);
        HandledRun(rest.onFirstToken, h.notified + rest.notified, rest.raised)
  }

  function CountFirstTokens(ns: seq<Notification>): nat
  {
    if ns == [] then 0
    else CountFirstTokens(ns[..|ns| - 1]) + (if ns[|ns| - 1] == FirstTokenCallback then 1 else 0)
  }

  lemma {:induction false} CountAppend(a: seq<Notification>, b: seq<Notification>)
    ensures CountFirstTokens(a + b) == CountFirstTokens(a) + CountFirstTokens(b)
    decreases |b|
  {
    if b == [] {
      assert a + b == a;
    } else {
      assert (a + b)[..|a + b| - 1] == a + b[..|b| - 1];
      CountAppend(a, b[..|b| - 1]);
    }
  }

  /** One event fires the first-token callback at most once, and only while it is still registered. */
  lemma HandleEventFirstToken(hasPromptCallback: bool, hasFragmentCallback: bool, hasInvalidToolCallback: bool,
                              hasMessageCallback: bool, onFirstToken: bool, result: Option<PredictionResult>,
                              event: PredictionEvent)
    ensures var h := HandleEvent(hasPromptCallback, hasFragmentCallback, hasInvalidToolCallback, hasMessageCallback,
                                 onFirstToken, result, event);
      && CountFirstTokens(h.notified) == (if onFirstToken && event.Fragment? then 1 else 0)
      && (h.onFirstToken <==> onFirstToken && !event.Fragment?)
  {
    match event
    case Fragment(text, _) =>
      var first := if onFirstToken then [FirstTokenCallback] else [];
      var cb := if hasFragmentCallback then [FragmentCallback(text)] else [];
      CountAppend(first, cb);
      if onFirstToken {
        CountOne(FirstTokenCallback);
      }
      if hasFragmentCallback {
        CountOne(FragmentCallback(text));
      }
    case PrepProgress(p) =>
      CountOne(PromptProgressCallback(p));
    case ToolCall(_) =>
    case ToolCallAborted =>
      CountOne(InvalidToolRequestCallback);
    case PredictionFinished =>
      if result.Some? {
        CountOne(MessageCallback(result.value.content));
      }
  }

  lemma CountOne(n: Notification)
    ensures CountFirstTokens([n]) == if n == FirstTokenCallback then 1 else 0
  {
    assert [n][..0] == [];
  }

  /**
   * However many fragments arrive, the first-token callback fires at most
   * once, and never when it was not registered (or has already fired).
   */
  lemma {:induction false} FirstTokenAtMostOnce(hasPromptCallback: bool, hasFragmentCallback: bool,
                                                hasInvalidToolCallback: bool, hasMessageCallback: bool,
                                                onFirstToken: bool, result: Option<PredictionResult>,
                                                events: seq<PredictionEvent>)
    ensures var run := HandleEvents(hasPromptCallback, hasFragmentCallback, hasInvalidToolCallback, hasMessageCallback,
                                    onFirstToken, result, events);
      && CountFirstTokens(run.notified) <= (if onFirstToken then 1 else 0)
      && (run.onFirstToken ==> onFirstToken)
    decreases |events|
  {
    if events != [] {
      var h := HandleEvent(hasPromptCallback, hasFragmentCallback, hasInvalidToolCallback, hasMessageCallback,
                           onFirstToken, result, events[0]);
      HandleEventFirstToken(hasPromptCallback, hasFragmentCallback, hasInvalidToolCallback, hasMessageCallback,
                            onFirstToken, result, events[0]);
      if h.raised.None? {
        var rest := HandleEvents(hasPromptCallback, hasFragmentCallback, hasInvalidToolCallback, hasMessageCallback,
                                 h.onFirstToken, result, events[1..]);
        FirstTokenAtMostOnce(hasPromptCallback, hasFragmentCallback, hasInvalidToolCallback, hasMessageCallback,
                             h.onFirstToken, result, events[1..]);
        CountAppend(h.notified, rest.notified);
      }
    }
  }

  /* ---------------------------------------------------------------------
   * PredictionStreamBase
   * ------------------------------------------------------------------- */

  datatype StreamState = StreamState(isStarted: bool, isFinished: bool, finalResult: Option<PredictionResult>,
                                     error: Option<Error>)

  /** result(): not started, a stored error, and no result yet all raise, in that order. */
  function StreamResult(s: StreamState): (r: Result<PredictionResult>)
    ensures r.Ok? <==> s.isStarted && s.error.None? && s.finalResult.Some?
    ensures r.Ok? ==> r.value == s.finalResult.value
    ensures s.isStarted && s.error.Some? ==> r == Err(s.error.value)
  {
    if !s.isStarted then Err(RuntimeError)
    else if s.error.Some? then Err(s.error.value)
    else if s.finalResult.None? then Err(RuntimeError)
    else Ok(s.finalResult.value)
  }

  /** _set_error: ignored once finished. */
  function StreamSetError(s: StreamState, e: Error): StreamState
  {
    if s.isFinished then s else s.(isFinished := true, error := Some(e))
  }

  /**
   * _mark_finished: ignored once finished; otherwise the stream is marked
   * finished first, then takes the endpoint's result, which raises while
   * the endpoint is still active.
   */
  function StreamMarkFinished(s: StreamState, endpointResult: Result<PredictionResult>): (StreamState, Result<()>)
  {
    if s.isFinished then (s, Ok(()))
    else match endpointResult
      case Ok(r) => (s.(isFinished := true, finalResult := Some(r)), Ok(()))
      case Err(e) => (s.(isFinished := true), Err(e))
  }

  /** The first outcome wins: a finished stream ignores later errors and completions. */
  lemma FirstOutcomeWins(s: StreamState, e: Error, endpointResult: Result<PredictionResult>)
    requires s.isFinished
    ensures StreamSetError(s, e) == s
    ensures StreamMarkFinished(s, endpointResult) == (s, Ok(()))
    ensures StreamResult(StreamSetError(s, e)) == StreamResult(s)
  {
  }

  /**
   * A started stream that fails reports its error from then on; one that
   * completes reports the endpoint's result.
   */
  lemma StreamOutcomes(s: StreamState, e: Error, r: PredictionResult)
    requires s.isStarted && !s.isFinished && s.error.None?
    ensures StreamResult(StreamSetError(s, e)) == Err(e)
    ensures StreamResult(StreamMarkFinished(s, Ok(r)).0) == Ok(r)
    ensures StreamResult(StreamSetError(StreamMarkFinished(s, Ok(r)).0, e)) == Ok(r)
  {
  }

  class PredictionStreamBase {
    const endpoint: PredictionEndpoint
    var isStarted: bool
    var isFinished: bool
    var finalResult: Option<PredictionResult>
    var error: Option<Error>

    function State(): StreamState
      reads this
    {
      StreamState(isStarted, isFinished, finalResult, error)
    }

    constructor (endpoint: PredictionEndpoint)
      ensures this.endpoint == endpoint
      ensures State() == StreamState(false, false, None, None)
    {
      this.endpoint := endpoint;
      isStarted := false;
      isFinished := false;
      finalResult := None;
      error := None;
    }

    /** result() */
    function Result(): (r: Result<PredictionResult>)
      reads this
      ensures r.Ok? <==> isStarted && error.None? && finalResult.Some?
      ensures r.Ok? ==> r.value == finalResult.value
      ensures isStarted && error.Some? ==> r == Err(error.value)
      ensures !isStarted ==> r == Err(RuntimeError)
    {
      StreamResult(State())
    }

    /** _set_error */
    method SetError(e: Error)
      modifies this
      ensures State() == StreamSetError(old(State()), e)
    {
      if isFinished {
        return;
      }
      isFinished := true;
      error := Some(e);
    }

    /** _mark_started */
    method MarkStarted()
      modifies this
      ensures State() == old(State()).(isStarted := true)
    {
      isStarted := true;
    }

    /** _mark_finished */
    method MarkFinished() returns (r: Result<()>)
      modifies this
      ensures (State(), r) == StreamMarkFinished(old(State()), endpoint.Result())
    {
      if isFinished {
        return Ok(());
      }
      isFinished := true;
      var outcome := endpoint.Result();
      if outcome.Err? {
        return Err(outcome.error);
      }
      finalResult := Some(outcome.value);
      r := Ok(());
    }

    /** _mark_cancelled */
    method MarkCancelled()
      modifies endpoint
      ensures endpoint.State() == old(endpoint.State()).(isCancelled := true)
      ensures endpoint.onFirstToken == old(endpoint.onFirstToken)
    {
      endpoint.MarkCancelled();
    }
  }
}
