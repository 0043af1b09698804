// Channel endpoints: each turns one received payload into zero or more
// events, tracking its progress, whether it has finished and its result.
// Every endpoint has a step function on a state value (the specification)
// and a class whose fields the source updates; the class's method is
// proved to move its fields exactly as the step function says.
//
// The source's endpoints are generators consumed to the end by their
// callers; the model produces all of one payload's events at once.

module Endpoints {
  import opened JsonValue
  import opened SdkErrors
  import PyStrings

  /** ChannelEndpoint.result: only a finished channel has a result to read. */
  function ReadResult<T>(isFinished: bool, result: Option<T>): (r: Result<T>)
    ensures r.Ok? <==> isFinished && result.Some?
    ensures r.Ok? ==> r.value == result.value
    ensures !isFinished ==> r == Err(RuntimeError)
  {
    if !isFinished then Err(RuntimeError)
    else if result.None? then Err(Builtin(AssertionError))
    else Ok(result.value)
  }

  /** LMStudioChannelClosedError carries no server details. */
  const ChannelClosedError: Error := ServerError(ChannelClosed, None)

  /** The payload's "type" is one of `types`. */
  predicate TypeIn(contents: Entries, types: set<string>)
  {
    match Get(JObject(contents), "type")
    case Some(JStr(t)) => t in types
    case _ => false
  }

  /* ---------------------------------------------------------------------
   * Model loading (_ModelLoadingEndpoint: loadModel and getOrLoad)
   * ------------------------------------------------------------------- */

  datatype ModelLoadResult = ModelLoadResult(identifier: Json, instanceReference: Json, path: Json)

  datatype LoadingEvent = LoadProgress(progress: real) | LoadFinished

  datatype LoadingState = LoadingState(isFinished: bool, result: Option<ModelLoadResult>, lastProgress: real)

  datatype LoadingStep = LoadingStep(state: LoadingState, outcome: Result<seq<LoadingEvent>>)

  /**
   * _update_progress: a value no greater than the last one is dropped;
   * otherwise it becomes the last value, and is reported when a callback
   * is registered.
   */
  function UpdateProgress(hasCallback: bool, last: real, progress: real): (r: (real, seq<LoadingEvent>))
    ensures progress <= last ==> r == (last, [])
    ensures progress > last ==> r.0 == progress
    ensures r.1 == if hasCallback && progress > last then [LoadProgress(progress)] else []
  {
    if progress <= last then (last, [])
    else (progress, if hasCallback then [LoadProgress(progress)] else [])
  }

  /** The load-success shapes: the result's three fields, when all are present. */
  function LoadInfo(contents: Entries): Option<ModelLoadResult>
  {
    if !TypeIn(contents, {"success", "alreadyLoaded", "loadSuccess"}) then None
    else match Get(JObject(contents), "info")
      case Some(JObject(info)) =>
        if HasKey(info, "identifier") && HasKey(info, "instanceReference") && HasKey(info, "path") then
          Some(ModelLoadResult(Lookup(info, "identifier").value, Lookup(info, "instanceReference").value,
                               Lookup(info, "path").value))
        else None
      case _ => None
  }

  /**
   * The cases of iter_message_events after the JIT-unload shape, which a
   * failing guard falls through to.
   */
  function LoadingLater(hasCallback: bool, s: LoadingState, contents: Entries): LoadingStep
  {
    match LoadInfo(contents)
    case Some(info) =>
      var (last, events) := if s.lastProgress < 1.0 then UpdateProgress(hasCallback, s.lastProgress, 1.0)
                            else (s.lastProgress, []);
      LoadingStep(LoadingState(true, Some(info), last), Ok(events + [LoadFinished]))
    case None => LoadingStep(s, Err(UnknownMessageError))
  }

  /** _ModelLoadingEndpoint.iter_message_events */
  function LoadingNext(hasCallback: bool, s: LoadingState, contents: Option<Entries>): (step: LoadingStep)
  {
    if s.isFinished then LoadingStep(s, Err(ClientError))
    else match contents
      case None => LoadingStep(s, Err(ChannelClosedError))
      case Some(c) =>
        var message := JObject(c);
        if TypeIs(message, "resolved") then LoadingStep(s, Ok([]))
        else if TypeIs(message, "startLoading") then
          var (last, events) := UpdateProgress(hasCallback, s.lastProgress, 0.0);
          LoadingStep(s.(lastProgress := last), Ok(events))
        else if TypeIn(c, {"loadProgress", "progress"}) && Get(message, "progress").Some? then
          match NumberValue(Get(message, "progress").value)
          case None => LoadingStep(s, Err(Builtin(TypeError)))
          case Some(p) =>
            var (last, events) := UpdateProgress(hasCallback, s.lastProgress, p);
            LoadingStep(s.(lastProgress := last), Ok(events))
        else if TypeIs(message, "unloadingOtherJITModel") && Get(message, "info").Some? then
          match Contains(Get(message, "info").value, "modelKey")
          case None => LoadingStep(s, Err(Builtin(TypeError)))
          case Some(true) =>
            // `other_model_info["modelKey"]` raises TypeError unless the info is a dict
            if Get(message, "info").value.JObject? then LoadingStep(s, Ok([]))
            else LoadingStep(s, Err(Builtin(TypeError)))
          case Some(false) => LoadingLater(hasCallback, s, c)
        else LoadingLater(hasCallback, s, c)
  }

  /** The loading endpoint as the source keeps it: fields updated in place. */
  class LoadingEndpoint {
    const hasProgressCallback: bool
    var isFinished: bool
    var result: Option<ModelLoadResult>
    var lastProgress: real

    function State(): LoadingState
      reads this
    {
      LoadingState(isFinished, result, lastProgress)
    }

    constructor (hasProgressCallback: bool)
      ensures this.hasProgressCallback == hasProgressCallback
      ensures State() == LoadingState(false, None, -1.0)
    {
      this.hasProgressCallback := hasProgressCallback;
      isFinished := false;
      result := None;
      lastProgress := -1.0;
    }

    /** _update_progress */
    method Progress(progress: real) returns (events: seq<LoadingEvent>)
      modifies this
      ensures (lastProgress, events) == UpdateProgress(hasProgressCallback, old(lastProgress), progress)
      ensures isFinished == old(isFinished) && result == old(result)
    {
      events := [];
      if progress <= lastProgress {
        return;
      }
      lastProgress := progress;
      if hasProgressCallback {
        events := [LoadProgress(progress)];
      }
    }

    /** iter_message_events, consumed to the end. */
    method IterMessageEvents(contents: Option<Entries>) returns (r: Result<seq<LoadingEvent>>)
      modifies this
      ensures State() == LoadingNext(hasProgressCallback, old(State()), contents).state
      ensures r == LoadingNext(hasProgressCallback, old(State()), contents).outcome
    {
      if isFinished {
        return Err(ClientError);
      }
      if contents.None? {
        return Err(ChannelClosedError);
      }
      var c := contents.value;
      var message := JObject(c);
      if TypeIs(message, "resolved") {
        r := Ok([]);
      } else if TypeIs(message, "startLoading") {
        var events := Progress(0.0);
        r := Ok(events);
      } else if TypeIn(c, {"loadProgress", "progress"}) && Get(message, "progress").Some? {
        var p := NumberValue(Get(message, "progress").value);
        if p.None? {
          return Err(Builtin(TypeError));
        }
        var events := Progress(p.value);
        r := Ok(events);
      } else if TypeIs(message, "unloadingOtherJITModel") && Get(message, "info").Some?
             && Contains(Get(message, "info").value, "modelKey") != Some(false) {
        if Get(message, "info").value.JObject? {
          r := Ok([]);
        } else {
          r := Err(Builtin(TypeError));
        }
      } else {
        var info := LoadInfo(c);
        if info.None? {
          return Err(UnknownMessageError);
        }
        var events := [];
        if lastProgress < 1.0 {
          events := Progress(1.0);
        }
        isFinished := true;
        result := info;
        r := Ok(events + [LoadFinished]);
      }
    }

    /** result() */
    function Result(): (r: Result<ModelLoadResult>)
      reads this
      ensures r.Ok? <==> isFinished && result.Some?
      ensures !isFinished ==> r == Err(RuntimeError)
    {
      ReadResult(isFinished, result)
    }
  }

  /* Runs of the loading endpoint over a stream of payloads. */

  datatype LoadingRun = LoadingRun(state: LoadingState, events: seq<LoadingEvent>, raised: Option<Error>)

  /** Feeding payloads in turn; the first error ends the run. */
  function RunLoading(hasCallback: bool, s: LoadingState, payloads: seq<Option<Entries>>): LoadingRun
    decreases |payloads|
  {
    if payloads == [] then LoadingRun(s, [], None)
    else
      var step := LoadingNext(hasCallback, s, payloads[0]);
      match step.outcome
      case Err(e) => LoadingRun(step.state, [], Some(e))
      case Ok(events) =>
        var rest := RunLoading(hasCallback, step.state, payloads[1..]);
        LoadingRun(rest.state, events + rest.events, rest.raised)
  }

  function ProgressValues(events: seq<LoadingEvent>): seq<real>
  {
    if events == [] then []
    else
      var last := events[|events| - 1];
      ProgressValues(events[..|events| - 1]) + (if last.LoadProgress? then [last.progress] else [])
  }

  /** Every value lies in (lo, hi], each greater than the one before. */
  predicate IncreasingWithin(ps: seq<real>, lo: real, hi: real)
  {
    && (forall i :: 0 <= i < |ps| ==> lo < ps[i] <= hi)
    && (forall i, j :: 0 <= i < j < |ps| ==> ps[i] < ps[j])
  }

  lemma {:induction false} ProgressValuesAppend(a: seq<LoadingEvent>, b: seq<LoadingEvent>)
    ensures ProgressValues(a + b) == ProgressValues(a) + ProgressValues(b)
    decreases |b|
  {
    if b == [] {
      assert a + b == a;
    } else {
      var init := b[..|b| - 1];
      var last := b[|b| - 1];
      var tail := if last.LoadProgress? then [last.progress] else [];
      assert (a + b)[..|a + b| - 1] == a + init;
      ProgressValuesAppend(a, init);
      calc {
        ProgressValues(a + b);
        ProgressValues(a + init) + tail;
        (ProgressValues(a) + ProgressValues(init)) + tail;
        ProgressValues(a) + (ProgressValues(init) + tail);
      }
    }
  }

  lemma IncreasingJoin(a: seq<real>, b: seq<real>, lo: real, mid: real, hi: real)
    requires lo <= mid <= hi
    requires IncreasingWithin(a, lo, mid) && IncreasingWithin(b, mid, hi)
    ensures IncreasingWithin(a + b, lo, hi)
  {
    var ab := a + b;
    forall i, j | 0 <= i < j < |ab|
      ensures ab[i] < ab[j]
    {
      if j < |a| {
        assert ab[i] == a[i] && ab[j] == a[j];
      } else if i < |a| {
        assert ab[i] == a[i] && ab[j] == b[j - |a|];
      } else {
        assert ab[i] == b[i - |a|] && ab[j] == b[j - |a|];
      }
    }
    forall i | 0 <= i < |ab|
      ensures lo < ab[i] <= hi
    {
      if i < |a| {
        assert ab[i] == a[i];
      } else {
        assert ab[i] == b[i - |a|];
      }
    }
  }

  lemma ProgressValuesOne(e: LoadingEvent)
    ensures ProgressValues([e]) == if e.LoadProgress? then [e.progress] else []
  {
    assert [e][..0] == [];
  }

  /**
   * A JIT-unload notice changes nothing. It is passed over exactly when its
   * info is a dict holding "modelKey"; any other info that passes the
   * `"modelKey" in info` guard raises TypeError on `info["modelKey"]`, and
   * one that fails the guard is an unknown message.
   */
  lemma LoadingJitUnload(hasCallback: bool, s: LoadingState, c: Entries)
    requires !s.isFinished && TypeIs(JObject(c), "unloadingOtherJITModel") && Get(JObject(c), "info").Some?
    ensures var step := LoadingNext(hasCallback, s, Some(c));
      var info := Get(JObject(c), "info").value;
      && step.state == s
      && (step.outcome == Ok([]) <==> info.JObject? && HasKey(info.entries, "modelKey"))
      && (step.outcome == Err(Builtin(TypeError)) <==> !info.JObject? && Contains(info, "modelKey") != Some(false))
      && (step.outcome == Err(UnknownMessageError) <==> Contains(info, "modelKey") == Some(false))
  {
    var message := JObject(c);
    assert Get(message, "type") == Some(JStr("unloadingOtherJITModel"));
    assert !TypeIn(c, {"loadProgress", "progress"});
    assert !TypeIn(c, {"success", "alreadyLoaded", "loadSuccess"});
  }

  /** The cases after the JIT-unload shape never lower the last progress. */
  lemma LoadingLaterProgress(hasCallback: bool, s: LoadingState, c: Entries)
    ensures var step := LoadingLater(hasCallback, s, c);
      && s.lastProgress <= step.state.lastProgress
      && (step.outcome.Ok? ==> IncreasingWithin(ProgressValues(step.outcome.value), s.lastProgress, step.state.lastProgress))
  {
    var step := LoadingLater(hasCallback, s, c);
    if step.outcome.Ok? {
      var events := step.outcome.value;
      var init := events[..|events| - 1];
      assert events == init + [LoadFinished];
      ProgressValuesAppend(init, [LoadFinished]);
      ProgressValuesOne(LoadFinished);
      if init != [] {
        ProgressValuesOne(init[0]);
        assert init == [LoadProgress(1.0)];
      }
    }
  }

  lemma UpdateProgressRises(hasCallback: bool, last: real, progress: real)
    ensures var (next, events) := UpdateProgress(hasCallback, last, progress);
      last <= next && IncreasingWithin(ProgressValues(events), last, next)
  {
    var (next, events) := UpdateProgress(hasCallback, last, progress);
    if events != [] {
      ProgressValuesOne(events[0]);
    }
  }

  /** One payload never lowers the last progress, and reports only values above it, increasing. */
  lemma LoadingStepProgress(hasCallback: bool, s: LoadingState, contents: Option<Entries>)
    ensures var step := LoadingNext(hasCallback, s, contents);
      && s.lastProgress <= step.state.lastProgress
      && (step.outcome.Ok? ==> IncreasingWithin(ProgressValues(step.outcome.value), s.lastProgress, step.state.lastProgress))
  {
    if !s.isFinished && contents.Some? {
      var c := contents.value;
      var message := JObject(c);
      if TypeIs(message, "resolved") {
      } else if TypeIs(message, "startLoading") {
        UpdateProgressRises(hasCallback, s.lastProgress, 0.0);
      } else if TypeIn(c, {"loadProgress", "progress"}) && Get(message, "progress").Some? {
        var p := NumberValue(Get(message, "progress").value);
        if p.Some? {
          UpdateProgressRises(hasCallback, s.lastProgress, p.value);
        }
      } else {
        LoadingLaterProgress(hasCallback, s, c);
      }
    }
  }

  /**
   * Progress reports over a whole run rise strictly, each above the
   * starting value and none above the final one, however the server
   * repeats or reorders its updates.
   */
  lemma {:induction false} LoadingRunProgress(hasCallback: bool, s: LoadingState, payloads: seq<Option<Entries>>)
    ensures var run := RunLoading(hasCallback, s, payloads);
      && s.lastProgress <= run.state.lastProgress
      && IncreasingWithin(ProgressValues(run.events), s.lastProgress, run.state.lastProgress)
    decreases |payloads|
  {
    if payloads != [] {
      var step := LoadingNext(hasCallback, s, payloads[0]);
      LoadingStepProgress(hasCallback, s, payloads[0]);
      if step.outcome.Ok? {
        var rest := RunLoading(hasCallback, step.state, payloads[1..]);
        LoadingRunProgress(hasCallback, step.state, payloads[1..]);
        ProgressValuesAppend(step.outcome.value, rest.events);
        IncreasingJoin(ProgressValues(step.outcome.value), ProgressValues(rest.events),
                       s.lastProgress, step.state.lastProgress, rest.state.lastProgress);
      }
    }
  }

  /** A `{"type": "progress", "progress": p}` payload. */
  function ProgressPayload(p: real): Option<Entries>
  {
    Some([("type", JStr("progress")), ("progress", JNum(p))])
  }

  /** A progress payload on an unfinished channel goes through _update_progress. */
  lemma LoadingProgressPayload(hasCallback: bool, s: LoadingState, p: real)
    requires !s.isFinished
    ensures LoadingNext(hasCallback, s, ProgressPayload(p))
      == var (last, events) := UpdateProgress(hasCallback, s.lastProgress, p);
         LoadingStep(s.(lastProgress := last), Ok(events))
  {
    var c := ProgressPayload(p).value;
    assert Keys(c) == ["type", "progress"];
    assert Get(JObject(c), "type") == Some(JStr("progress"));
    assert Get(JObject(c), "progress") == Some(JNum(p));
    assert TypeIn(c, {"loadProgress", "progress"});
  }

  /**
   * Progress 0.2, 0.2, 0.1, 0.5 on a fresh channel with a callback reports
   * exactly 0.2 and 0.5: the repeat and the step back are dropped.
   */
  lemma LoadingDedupExample()
    ensures RunLoading(true, LoadingState(false, None, -1.0),
                       [ProgressPayload(0.2), ProgressPayload(0.2), ProgressPayload(0.1), ProgressPayload(0.5)])
      == LoadingRun(LoadingState(false, None, 0.5), [LoadProgress(0.2), LoadProgress(0.5)], None)
  {
    var s0 := LoadingState(false, None, -1.0);
    var s1 := LoadingState(false, None, 0.2);
    var s2 := LoadingState(false, None, 0.5);
    var payloads := [ProgressPayload(0.2), ProgressPayload(0.2), ProgressPayload(0.1), ProgressPayload(0.5)];
    LoadingProgressPayload(true, s0, 0.2);
    LoadingProgressPayload(true, s1, 0.2);
    LoadingProgressPayload(true, s1, 0.1);
    LoadingProgressPayload(true, s1, 0.5);
    assert payloads[1..][1..][1..][1..] == [];
    assert RunLoading(true, s2, payloads[1..][1..][1..][1..]) == LoadingRun(s2, [], None);
    assert RunLoading(true, s1, payloads[1..][1..][1..]) == LoadingRun(s2, [LoadProgress(0.5)], None);
    assert RunLoading(true, s1, payloads[1..][1..]) == LoadingRun(s2, [LoadProgress(0.5)], None);
    assert RunLoading(true, s1, payloads[1..]) == LoadingRun(s2, [LoadProgress(0.5)], None);
  }

  /**
   * Once the channel has finished, every further payload raises a client
   * error and changes nothing; a closed channel raises before that.
   */
  lemma LoadingFinishedAbsorbs(hasCallback: bool, s: LoadingState, contents: Option<Entries>)
    ensures s.isFinished ==> LoadingNext(hasCallback, s, contents) == LoadingStep(s, Err(ClientError))
    ensures !s.isFinished && contents.None? ==> LoadingNext(hasCallback, s, contents) == LoadingStep(s, Err(ChannelClosedError))
  {
  }

  /**
   * Only a success payload finishes the channel; its last event is the
   * finish, its result becomes readable, and progress has reached 1.0.
   */
  lemma LoadingFinishes(hasCallback: bool, s: LoadingState, contents: Option<Entries>)
    ensures var step := LoadingNext(hasCallback, s, contents);
      step.state.isFinished && !s.isFinished ==>
        && step.outcome.Ok? && step.outcome.value != [] && step.outcome.value[|step.outcome.value| - 1] == LoadFinished
        && ReadResult(step.state.isFinished, step.state.result).Ok?
        && step.state.lastProgress >= 1.0
  {
    var step := LoadingNext(hasCallback, s, contents);
    if step.state.isFinished && !s.isFinished {
      var c := contents.value;
      assert step == LoadingLater(hasCallback, s, c);
      assert LoadInfo(c).Some?;
    }
  }

  /**
   * A success payload first reports progress 1.0 (when the last report was
   * below it and a callback is registered), then finishes the channel with
   * the result built from the payload's info.
   */
  lemma LoadingSuccess(hasCallback: bool, s: LoadingState, c: Entries)
    requires !s.isFinished && LoadInfo(c).Some?
    requires !TypeIs(JObject(c), "resolved") && !TypeIs(JObject(c), "startLoading")
    requires !TypeIn(c, {"loadProgress", "progress"}) && !TypeIs(JObject(c), "unloadingOtherJITModel")
    ensures LoadingNext(hasCallback, s, Some(c)).state == LoadingState(true, LoadInfo(c), if s.lastProgress < 1.0 then 1.0 else s.lastProgress)
    ensures LoadingNext(hasCallback, s, Some(c)).outcome
      == Ok((if hasCallback && s.lastProgress < 1.0 then [LoadProgress(1.0)] else []) + [LoadFinished])
  {
  }

  /* ---------------------------------------------------------------------
   * Model download (ModelDownloadEndpoint)
   * ------------------------------------------------------------------- */

  datatype DownloadUpdate = DownloadUpdate(downloadedBytes: Json, totalBytes: Json, speedBytesPerSecond: Json)

  datatype DownloadEvent = DownloadProgress(update: DownloadUpdate) | DownloadFinalize | DownloadFinished

  datatype DownloadState = DownloadState(isFinished: bool, result: Option<string>)

  datatype DownloadStep = DownloadStep(state: DownloadState, outcome: Result<seq<DownloadEvent>>)

  /** The `downloadProgress` shape: its update's three fields, when all are present. */
  function ProgressUpdate(contents: Entries): Option<DownloadUpdate>
  {
    if !TypeIs(JObject(contents), "downloadProgress") then None
    else match Get(JObject(contents), "update")
      case Some(JObject(u)) =>
        if HasKey(u, "downloadedBytes") && HasKey(u, "totalBytes") && HasKey(u, "speedBytesPerSecond") then
          Some(DownloadUpdate(Lookup(u, "downloadedBytes").value, Lookup(u, "totalBytes").value,
                              Lookup(u, "speedBytesPerSecond").value))
        else None
      case _ => None
  }

  /** The `success` shape: its default identifier, when it is a string. */
  function DefaultIdentifier(contents: Entries): Option<string>
  {
    if !TypeIs(JObject(contents), "success") then None
    else match Get(JObject(contents), "defaultIdentifier")
      case Some(JStr(id)) => Some(id)
      case _ => None
  }

  /**
   * ModelDownloadEndpoint.iter_message_events: progress and finalizing
   * are reported only to a registered callback; unlike model loading there
   * is no guard against payloads after the result.
   */
  function DownloadNext(hasProgressCallback: bool, hasFinalizeCallback: bool, s: DownloadState,
                        contents: Option<Entries>): (step: DownloadStep)
  {
    match contents
    case None => DownloadStep(s, Err(ChannelClosedError))
    case Some(c) =>
      if ProgressUpdate(c).Some? then
        DownloadStep(s, Ok(if hasProgressCallback then [DownloadProgress(ProgressUpdate(c).value)] else []))
      else if TypeIs(JObject(c), "startFinalizing") then
        DownloadStep(s, Ok(if hasFinalizeCallback then [DownloadFinalize] else []))
      else if DefaultIdentifier(c).Some? then
        DownloadStep(DownloadState(true, DefaultIdentifier(c)), Ok([DownloadFinished]))
      else DownloadStep(s, Err(UnknownMessageError))
  }

  class DownloadEndpoint {
    const hasProgressCallback: bool
    const hasFinalizeCallback: bool
    var isFinished: bool
    var result: Option<string>

    function State(): DownloadState
      reads this
    {
      DownloadState(isFinished, result)
    }

    constructor (hasProgressCallback: bool, hasFinalizeCallback: bool)
      ensures this.hasProgressCallback == hasProgressCallback && this.hasFinalizeCallback == hasFinalizeCallback
      ensures State() == DownloadState(false, None)
    {
      this.hasProgressCallback := hasProgressCallback;
      this.hasFinalizeCallback := hasFinalizeCallback;
      isFinished := false;
      result := None;
    }

    /** iter_message_events, consumed to the end. */
    method IterMessageEvents(contents: Option<Entries>) returns (r: Result<seq<DownloadEvent>>)
      modifies this
      ensures State() == DownloadNext(hasProgressCallback, hasFinalizeCallback, old(State()), contents).state
      ensures r == DownloadNext(hasProgressCallback, hasFinalizeCallback, old(State()), contents).outcome
    {
      if contents.None? {
        return Err(ChannelClosedError);
      }
      var c := contents.value;
      var update := ProgressUpdate(c);
      if update.Some? {
        r := Ok([]);
        if hasProgressCallback {
          r := Ok([DownloadProgress(update.value)]);
        }
      } else if TypeIs(JObject(c), "startFinalizing") {
        r := Ok([]);
        if hasFinalizeCallback {
          r := Ok([DownloadFinalize]);
        }
      } else {
        var id := DefaultIdentifier(c);
        if id.None? {
          return Err(UnknownMessageError);
        }
        isFinished := true;
        result := id;
        r := Ok([DownloadFinished]);
      }
    }

    /** result() */
    function Result(): (r: Result<string>)
      reads this
      ensures r.Ok? <==> isFinished && result.Some?
      ensures !isFinished ==> r == Err(RuntimeError)
    {
      ReadResult(isFinished, result)
    }
  }

  /**
   * Only a success payload finishes a download, and its result is then the
   * server's default identifier; progress and finalizing payloads change
   * nothing and report only to a registered callback.
   */
  lemma DownloadOutcomes(hasProgressCallback: bool, hasFinalizeCallback: bool, s: DownloadState, c: Entries)
    ensures var step := DownloadNext(hasProgressCallback, hasFinalizeCallback, s, Some(c));
      && (step.state != s ==> step.state == DownloadState(true, DefaultIdentifier(c)) && DefaultIdentifier(c).Some?)
      && (step.outcome.Ok? && DownloadFinished in step.outcome.value ==>
            ReadResult(step.state.isFinished, step.state.result) == Ok(DefaultIdentifier(c).value))
      && (step.outcome.Ok? && !hasProgressCallback ==> forall e :: e in step.outcome.value ==> !e.DownloadProgress?)
      && (step.outcome.Ok? && !hasFinalizeCallback ==> DownloadFinalize !in step.outcome.value)
      && (step.outcome.Err? ==> step.outcome.error == UnknownMessageError && step.state == s)
  {
  }
}
