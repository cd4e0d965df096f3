/**
  The worker side of the Qt application (main.py): `DownloadThread`, which asks
  yt-dlp for a video's title, then downloads it, and reports what happens as
  events on the shared queue.

  yt-dlp itself is not modelled.  What it does during one run is given as a
  `Library` value: the progress-hook calls it makes while fetching the title
  and while downloading, what the title fetch returns or raises, and whether
  the download raises at the end.  The interface thread may call `stop()` at
  any moment; a `StopRequest` step says where, among the hook calls, such a
  call falls.
*/
module QtWorker {
  import opened Wrappers
  import opened Text
  import opened Queues

  /** `str(uuid4())`. */
  type Id = string

  /** The dictionaries put on `downloads_queue`, by their 'update' key. */
  datatype Update =
    | Title(downloadId: Id, title: string)
    | Progress(downloadId: Id, progress: nat)
    | Finished(downloadId: Id)
    | Error(downloadId: Id, error: string)
    | Cancelled(downloadId: Id)

  /** The message of the exception a hook raises once the stop flag is set. */
  const CancelMessage := "Download cancelled"

  /** `str(e)` of the AttributeError raised by `.group` on a failed `re.search`. */
  const NoMatchMessage := "'NoneType' object has no attribute 'group'"

  const MaxTitleLength := 50

  /** A title longer than 50 characters is cut to its first 47 and "...". */
  function TruncateTitle(title: string): (r: string)
    ensures |r| <= MaxTitleLength
    ensures |title| <= MaxTitleLength ==> r == title
    ensures |title| > MaxTitleLength ==>
      |r| == MaxTitleLength && r[..47] == title[..47] && r[47..] == "..."
  {
    if |title| <= MaxTitleLength then title else title[..47] + "..."
  }

  // ---------------------------------------------------------------------
  // progress_str_to_int: the integer part of the first match of \d+\.\d+

  /** The end of the run of digits that starts at `i`. */
  function DigitRunEnd(s: string, i: nat): (j: nat)
    requires i <= |s|
    ensures i <= j <= |s|
    ensures AllDigits(s[i..j]) && forall k :: i <= k < j ==> IsDigit(s[k])
    ensures j < |s| ==> !IsDigit(s[j])
    decreases |s| - i
  {
    if i < |s| && IsDigit(s[i]) then
      var j := DigitRunEnd(s, i + 1);
      assert forall k :: 0 <= k < j - i ==> s[i..j][k] == (if k == 0 then s[i] else s[i + 1..j][k - 1]);
      j
    else i
  }

  /**
    The pattern `\d+\.\d+` matches at `i`, and its integral digits are
    `s[i..j]`: one or more digits, a dot, and at least one more digit.
  */
  ghost predicate MatchesAt(s: string, i: nat, j: nat) {
    i < j && j + 1 < |s| && AllDigits(s[i..j]) && s[j] == '.' && IsDigit(s[j + 1])
  }

  /** A match at `i` has its dot at the end of the digit run starting at `i`. */
  lemma MatchDotIsRunEnd(s: string, i: nat, j: nat)
    requires MatchesAt(s, i, j)
    ensures j == DigitRunEnd(s, i)
  {
    assert forall k :: i <= k < j ==> IsDigit(s[k]) by {
      forall k | i <= k < j ensures IsDigit(s[k]) {
        assert s[i..j][k - i] == s[k];
      }
    }
  }

  /**
    The leftmost match at or after `i`, as the bounds of its integral digits;
    `re.search` reports the leftmost match.
  */
  function Search(s: string, i: nat): (r: Option<(nat, nat)>)
    requires i <= |s|
    ensures r.Some? ==>
      i <= r.value.0 && MatchesAt(s, r.value.0, r.value.1) &&
      forall k, j :: i <= k < r.value.0 ==> !MatchesAt(s, k, j)
    ensures r.None? ==> forall k, j :: i <= k ==> !MatchesAt(s, k, j)
    decreases |s| - i
  {
    if i == |s| then None
    else
      var j := DigitRunEnd(s, i);
      if i < j && j + 1 < |s| && s[j] == '.' && IsDigit(s[j + 1]) then
        Some((i, j))
      else
        var r := Search(s, i + 1);
        assert forall j' :: !MatchesAt(s, i, j') by {
          forall j' | MatchesAt(s, i, j') ensures false {
            MatchDotIsRunEnd(s, i, j');
          }
        }
        r
  }

  /**
    `progress_str_to_int`: `int(float(m))` for the leftmost match `m` of
    `\d+\.\d+`, which is the value of the match's integral digits.  `None`
    stands for the AttributeError raised when nothing matches.
  */
  function ProgressStrToInt(s: string): (r: Option<nat>)
    ensures r.None? <==> forall i: nat, j: nat :: !MatchesAt(s, i, j)
    ensures r.Some? ==>
      exists i: nat, j: nat :: MatchesAt(s, i, j) && r.value == DigitsValue(s[i..j]) &&
        forall k: nat, j': nat :: k < i ==> !MatchesAt(s, k, j')
  {
    match Search(s, 0)
    case None => None
    case Some((i, j)) => Some(DigitsValue(s[i..j]))
  }

  /**
    yt-dlp's `_percent_str` carries a terminal colour code in front of the
    number; the digits of the code are not followed by a dot and are skipped.
  */
  lemma ProgressOfColouredPercent()
    ensures ProgressStrToInt("\U{1b}[0;94m 45.3%") == Some(45)
  {
    var s := "\U{1b}[0;94m 45.3%";
    assert DigitRunEnd(s, 8) == 10 by {
      assert DigitRunEnd(s, 10) == 10;
      assert DigitRunEnd(s, 9) == 10;
    }
    assert Search(s, 8) == Some((8, 10));
    assert DigitRunEnd(s, 4) == 6 by {
      assert DigitRunEnd(s, 6) == 6;
      assert DigitRunEnd(s, 5) == 6;
    }
    assert DigitRunEnd(s, 5) == 6;
    assert DigitRunEnd(s, 2) == 3;
    assert Search(s, 7) == Some((8, 10));
    assert Search(s, 6) == Some((8, 10));
    assert Search(s, 5) == Some((8, 10));
    assert Search(s, 4) == Some((8, 10));
    assert Search(s, 3) == Some((8, 10));
    assert Search(s, 2) == Some((8, 10));
    assert Search(s, 1) == Some((8, 10));
    assert Search(s, 0) == Some((8, 10));
    assert s[8..10] == "45";
    assert DigitsValue("45") == 45 by {
      assert "45"[..1] == "4";
      assert "4"[..0] == "";
    }
  }

  // ---------------------------------------------------------------------
  // The hooks and the run

  /** The dictionary yt-dlp passes to a progress hook (the keys that are read). */
  datatype HookDict = HookDict(status: string, percentStr: string)

  /** One thing that happens while yt-dlp works: a hook call, or `stop()` from the interface. */
  datatype Step = Hook(d: HookDict) | StopRequest

  /** Which hook yt-dlp is calling: `title_progress_hook` or `progress_hook`. */
  datatype Phase = InfoPhase | DownloadPhase

  /** What one hook call does: put at most one event, or raise. */
  datatype HookResult = Emitted(update: Option<Update>) | Raised(message: string)

  /** The effect of one hook call in `phase` with the stop flag `stopped`. */
  function HookCall(id: Id, phase: Phase, stopped: bool, d: HookDict): HookResult {
    if stopped then Raised(CancelMessage)
    else if phase == InfoPhase then Emitted(None)
    else if d.status == "downloading" then
      match ProgressStrToInt(d.percentStr)
      case None => Raised(NoMatchMessage)
      case Some(p) => Emitted(Some(Progress(id, p)))
    else if d.status == "finished" then Emitted(Some(Finished(id)))
    else Emitted(None)
  }

  /** A hook call with the stop flag set always raises "Download cancelled". */
  lemma StoppedHookRaisesCancel(id: Id, phase: Phase, d: HookDict)
    ensures HookCall(id, phase, true, d) == Raised(CancelMessage)
  {
  }

  function OptionToSeq<T>(o: Option<T>): seq<T> {
    if o.Some? then [o.value] else []
  }

  /** The events put, the stop flag afterwards, and the exception raised, if any. */
  datatype StepsResult = StepsResult(updates: seq<Update>, stopped: bool, raised: Option<string>)

  function WithPrefix(p: seq<Update>, r: StepsResult): StepsResult {
    r.(updates := p + r.updates)
  }

  lemma WithPrefixTwice(p: seq<Update>, q: seq<Update>, r: StepsResult)
    ensures WithPrefix(p, WithPrefix(q, r)) == WithPrefix(p + q, r)
  {
    assert p + (q + r.updates) == (p + q) + r.updates;
  }

  /** A sequence of steps in one phase; the first exception aborts the rest. */
  function RunSteps(id: Id, phase: Phase, stopped: bool, steps: seq<Step>): StepsResult
    decreases |steps|
  {
    if steps == [] then StepsResult([], stopped, None)
    else match steps[0]
      case StopRequest => RunSteps(id, phase, true, steps[1..])
      case Hook(d) =>
        match HookCall(id, phase, stopped, d)
        case Raised(m) => StepsResult([], stopped, Some(m))
        case Emitted(u) => WithPrefix(OptionToSeq(u), RunSteps(id, phase, stopped, steps[1..]))
  }

  /** One step of `RunSteps` taken from the middle of a step sequence. */
  lemma RunStepsAt(id: Id, phase: Phase, stopped: bool, steps: seq<Step>, k: nat)
    requires k < |steps|
    ensures RunSteps(id, phase, stopped, steps[k..]) ==
      match steps[k]
      case StopRequest => RunSteps(id, phase, true, steps[k + 1..])
      case Hook(d) =>
        match HookCall(id, phase, stopped, d)
        case Raised(m) => StepsResult([], stopped, Some(m))
        case Emitted(u) => WithPrefix(OptionToSeq(u), RunSteps(id, phase, stopped, steps[k + 1..]))
  {
    assert steps[k..][0] == steps[k];
    assert steps[k..][1..] == steps[k + 1..];
  }

  /** Some step is a hook call. */
  predicate HasHook(steps: seq<Step>) {
    exists k :: 0 <= k < |steps| && steps[k].Hook?
  }

  /** What `extract_info` ends with: the title, or an exception's message. */
  datatype InfoResult = InfoTitle(title: string) | InfoError(message: string)

  /** Everything yt-dlp does during one `run`. */
  datatype Library = Library(
    infoSteps: seq<Step>,
    info: InfoResult,
    downloadSteps: seq<Step>,
    downloadError: Option<string>)

  /** The body of `run`'s `try`: what it puts and what it raises. */
  function RunTry(id: Id, stopped: bool, lib: Library): StepsResult {
    var a := RunSteps(id, InfoPhase, stopped, lib.infoSteps);
    if a.raised.Some? then a
    else match lib.info
      case InfoError(m) => a.(raised := Some(m))
      case InfoTitle(t) =>
        var b := RunSteps(id, DownloadPhase, a.stopped, lib.downloadSteps);
        var raised := if b.raised.Some? then b.raised else lib.downloadError;
        StepsResult(a.updates + [Title(id, TruncateTitle(t))] + b.updates, b.stopped, raised)
  }

  /** `run`'s `except`: "Download cancelled" becomes `cancelled`, anything else `error`. */
  function Classify(id: Id, message: string): (u: Update)
    ensures u.downloadId == id
    ensures u.Cancelled? <==> message == CancelMessage
    ensures u.Error? <==> message != CancelMessage
    ensures u.Error? ==> u.error == message
  {
    if message == CancelMessage then Cancelled(id) else Error(id, message)
  }

  /** All the events one `run` puts on the queue. */
  function RunUpdates(id: Id, stopped: bool, lib: Library): seq<Update> {
    var r := RunTry(id, stopped, lib);
    r.updates + if r.raised.Some? then [Classify(id, r.raised.value)] else []
  }

  // ---------------------------------------------------------------------
  // Lemmas about the run

  /** `title_progress_hook` never puts anything. */
  lemma {:induction false} InfoPhasePutsNothing(id: Id, stopped: bool, steps: seq<Step>)
    ensures RunSteps(id, InfoPhase, stopped, steps).updates == []
    decreases |steps|
  {
    if steps != [] {
      InfoPhasePutsNothing(id, steps[0].StopRequest? || stopped, steps[1..]);
    }
  }

  /** Only `progress` and `finished` events, all for job `id`. */
  ghost predicate DownloadHookUpdates(id: Id, u: seq<Update>) {
    forall k :: 0 <= k < |u| ==> u[k].downloadId == id && (u[k].Progress? || u[k].Finished?)
  }

  /** The download hook puts only `progress` and `finished` events, all for this job. */
  lemma {:induction false} DownloadPhaseUpdates(id: Id, stopped: bool, steps: seq<Step>)
    ensures DownloadHookUpdates(id, RunSteps(id, DownloadPhase, stopped, steps).updates)
    decreases |steps|
  {
    if steps != [] {
      match steps[0]
      case StopRequest =>
        DownloadPhaseUpdates(id, true, steps[1..]);
      case Hook(d) =>
        var h := HookCall(id, DownloadPhase, stopped, d);
        if h.Emitted? {
          var u: seq<Update> := OptionToSeq(h.update);
          var rest := RunSteps(id, DownloadPhase, stopped, steps[1..]).updates;
          DownloadPhaseUpdates(id, stopped, steps[1..]);
          assert RunSteps(id, DownloadPhase, stopped, steps).updates == u + rest;
          forall k | 0 <= k < |u + rest|
            ensures (u + rest)[k].downloadId == id && ((u + rest)[k].Progress? || (u + rest)[k].Finished?)
          {
            if k >= |u| {
              assert (u + rest)[k] == rest[k - |u|];
            }
          }
        }
    }
  }

  /** Running `p + q` is running `p`, then, unless `p` raised, running `q`. */
  lemma {:induction false} RunStepsAppend(id: Id, phase: Phase, stopped: bool, p: seq<Step>, q: seq<Step>)
    ensures var a := RunSteps(id, phase, stopped, p);
      RunSteps(id, phase, stopped, p + q) ==
        if a.raised.Some? then a else WithPrefix(a.updates, RunSteps(id, phase, a.stopped, q))
    decreases |p|
  {
    if p == [] {
      assert p + q == q;
    } else {
      assert (p + q)[0] == p[0];
      assert (p + q)[1..] == p[1..] + q;
      RunStepsAppend(id, phase, p[0].StopRequest? || stopped, p[1..], q);
    }
  }

  /** With the stop flag set, the first hook call raises "Download cancelled" and nothing is put. */
  lemma {:induction false} StoppedRunCancels(id: Id, phase: Phase, steps: seq<Step>)
    requires HasHook(steps)
    ensures RunSteps(id, phase, true, steps).raised == Some(CancelMessage)
    ensures RunSteps(id, phase, true, steps).updates == []
    decreases |steps|
  {
    if steps[0].StopRequest? {
      var k :| 0 <= k < |steps| && steps[k].Hook?;
      assert steps[1..][k - 1].Hook?;
      StoppedRunCancels(id, phase, steps[1..]);
    }
  }

  /**
    Once `stop()` has been called, the next hook call aborts the phase with
    "Download cancelled": nothing after the stop request is put.
  */
  lemma StopThenHookCancels(id: Id, phase: Phase, stopped: bool, p: seq<Step>, q: seq<Step>)
    requires RunSteps(id, phase, stopped, p).raised.None?
    requires HasHook(q)
    ensures var r := RunSteps(id, phase, stopped, p + [StopRequest] + q);
      r.raised == Some(CancelMessage) && r.updates == RunSteps(id, phase, stopped, p).updates
  {
    var a := RunSteps(id, phase, stopped, p);
    RunStepsAppend(id, phase, stopped, p, [StopRequest] + q);
    assert ([StopRequest] + q)[1..] == q;
    StoppedRunCancels(id, phase, q);
    assert p + [StopRequest] + q == p + ([StopRequest] + q);
  }

  /** Calling `stop()` before the thread runs: a hook while fetching the title gives only `cancelled`. */
  lemma StoppedBeforeTitle(id: Id, lib: Library)
    requires HasHook(lib.infoSteps)
    ensures RunUpdates(id, true, lib) == [Cancelled(id)]
  {
    StoppedRunCancels(id, InfoPhase, lib.infoSteps);
  }

  /**
    Calling `stop()` before the download starts: the title is still shown,
    the next download hook call cancels, and no progress is reported.
  */
  lemma StoppedBeforeDownload(id: Id, lib: Library, title: string)
    requires !HasHook(lib.infoSteps) && lib.info == InfoTitle(title)
    requires HasHook(lib.downloadSteps)
    ensures RunUpdates(id, true, lib) == [Title(id, TruncateTitle(title)), Cancelled(id)]
  {
    InfoStepsWithoutHook(id, true, lib.infoSteps);
    StoppedRunCancels(id, DownloadPhase, lib.downloadSteps);
  }

  /** Without hook calls, a phase raises nothing and puts nothing; stop requests only set the flag. */
  lemma {:induction false} InfoStepsWithoutHook(id: Id, stopped: bool, steps: seq<Step>)
    requires !HasHook(steps)
    ensures RunSteps(id, InfoPhase, stopped, steps) ==
      StepsResult([], stopped || steps != [], None)
    decreases |steps|
  {
    if steps != [] {
      assert steps[0].StopRequest? by { assert !steps[0].Hook?; }
      assert !HasHook(steps[1..]) by {
        forall k | 0 <= k < |steps| - 1 ensures !steps[1..][k].Hook? {
          assert steps[1..][k] == steps[k + 1];
        }
      }
      InfoStepsWithoutHook(id, true, steps[1..]);
    }
  }

  /**
    A stop request that no later hook call observes changes nothing: the run
    that yt-dlp completes without calling a hook puts no `cancelled` event,
    even with the stop flag set.
  */
  lemma StopWithoutHookIsIgnored(id: Id, lib: Library, title: string)
    requires !HasHook(lib.infoSteps) && lib.info == InfoTitle(title)
    requires lib.downloadSteps == [] && lib.downloadError.None?
    ensures RunUpdates(id, true, lib) == [Title(id, TruncateTitle(title))]
  {
    InfoStepsWithoutHook(id, true, lib.infoSteps);
  }

  ghost predicate IsAbort(u: Update) {
    u.Error? || u.Cancelled?
  }

  /**
    A run puts events for its own job only; an error or cancellation event
    occurs at most once and only as the last event, exactly when the run
    raised, and it is `cancelled` exactly when the exception was the
    cancellation; a title event is the first event and is at most 50
    characters long.
  */
  lemma RunUpdatesShape(id: Id, stopped: bool, lib: Library)
    ensures var u := RunUpdates(id, stopped, lib);
      var raised := RunTry(id, stopped, lib).raised;
      && (forall k :: 0 <= k < |u| ==> u[k].downloadId == id)
      && (forall k :: 0 <= k < |u| - 1 ==> !IsAbort(u[k]))
      && (u != [] && IsAbort(u[|u| - 1]) <==> raised.Some?)
      && (u != [] && u[|u| - 1].Cancelled? <==> raised == Some(CancelMessage))
      && (forall m :: u != [] && u[|u| - 1] == Error(id, m) <==> raised == Some(m) && m != CancelMessage)
      && (forall k :: 0 <= k < |u| && u[k].Title? ==> k == 0 && |u[k].title| <= MaxTitleLength)
  {
    var r := RunTry(id, stopped, lib);
    var p := r.updates;
    TryUpdatesShape(id, stopped, lib);
    var tail := if r.raised.Some? then [Classify(id, r.raised.value)] else [];
    var u := p + tail;
    assert forall k :: 0 <= k < |p| ==> u[k] == p[k];
  }

  /** Before the `except`, a run puts only events for its job, no abort, and a title only first. */
  lemma TryUpdatesShape(id: Id, stopped: bool, lib: Library)
    ensures var p := RunTry(id, stopped, lib).updates;
      forall k :: 0 <= k < |p| ==>
        p[k].downloadId == id && !IsAbort(p[k]) &&
        (p[k].Title? ==> k == 0 && |p[k].title| <= MaxTitleLength)
  {
    var a := RunSteps(id, InfoPhase, stopped, lib.infoSteps);
    InfoPhasePutsNothing(id, stopped, lib.infoSteps);
    if a.raised.None? && lib.info.InfoTitle? {
      var b := RunSteps(id, DownloadPhase, a.stopped, lib.downloadSteps);
      DownloadPhaseUpdates(id, a.stopped, lib.downloadSteps);
      var p := [Title(id, TruncateTitle(lib.info.title))] + b.updates;
      assert RunTry(id, stopped, lib).updates == p;
      assert forall k :: 1 <= k < |p| ==> p[k] == b.updates[k - 1];
    }
  }

  // ---------------------------------------------------------------------
  // The thread object

  class DownloadThread {
    const url: string
    const downloadId: Id
    const format: string
    /** The module-level `downloads_queue` every thread puts on. */
    const queue: Queue<Update>
    /** `stop_event.is_set()`. */
    var stopped: bool

    constructor (url: string, downloadId: Id, format: string, queue: Queue<Update>)
      ensures this.url == url && this.downloadId == downloadId && this.format == format
      ensures this.queue == queue && !stopped
    {
      this.url := url;
      this.downloadId := downloadId;
      this.format := format;
      this.queue := queue;
      stopped := false;
    }

    /** `stop`: raise the flag the hooks check. */
    method Stop()
      modifies this
      ensures stopped
    {
      stopped := true;
    }

    /** `progress_hook`; the returned message is the exception it raises. */
    method ProgressHook(d: HookDict) returns (raised: Option<string>)
      modifies queue
      ensures var h := HookCall(downloadId, DownloadPhase, stopped, d);
        (h.Raised? ==> raised == Some(h.message) && queue.items == old(queue.items)) &&
        (h.Emitted? ==> raised.None? && queue.items == old(queue.items) + OptionToSeq(h.update))
      ensures |old(queue.items)| <= |queue.items| <= |old(queue.items)| + 1
    {
      raised := None;
      if stopped {
        raised := Some(CancelMessage);
        return;
      }
      if d.status == "downloading" {
        var p := ProgressStrToInt(d.percentStr);
        if p.None? {
          raised := Some(NoMatchMessage);
          return;
        }
        queue.Put(Progress(downloadId, p.value));
      } else if d.status == "finished" {
        queue.Put(Finished(downloadId));
      }
    }

    /** `title_progress_hook`: raise once the thread has been stopped. */
    method TitleProgressHook() returns (raised: Option<string>)
      ensures raised == (if stopped then Some(CancelMessage) else None)
    {
      raised := if stopped then Some(CancelMessage) else None;
    }

    /** yt-dlp calling the hook of `phase` with `d`. */
    method CallHook(phase: Phase, d: HookDict) returns (raised: Option<string>)
      modifies queue
      ensures var h := HookCall(downloadId, phase, stopped, d);
        (h.Raised? ==> raised == Some(h.message) && queue.items == old(queue.items)) &&
        (h.Emitted? ==> raised.None? && queue.items == old(queue.items) + OptionToSeq(h.update))
      ensures |old(queue.items)| <= |queue.items| <= |old(queue.items)| + 1
    {
      if phase == InfoPhase {
        raised := TitleProgressHook();
      } else {
        raised := ProgressHook(d);
      }
    }

    /** yt-dlp working through `steps`, calling the hook of `phase` at each hook step. */
    method RunHooks(phase: Phase, steps: seq<Step>) returns (raised: Option<string>)
      modifies this, queue
      ensures var r := RunSteps(downloadId, phase, old(stopped), steps);
        queue.items == old(queue.items) + r.updates && stopped == r.stopped && raised == r.raised
    {
      ghost var put: seq<Update> := [];
      var k := 0;
      while k < |steps|
        invariant 0 <= k <= |steps|
        invariant queue.items == old(queue.items) + put
        invariant RunSteps(downloadId, phase, old(stopped), steps) ==
          WithPrefix(put, RunSteps(downloadId, phase, stopped, steps[k..]))
      {
        ghost var delta;
        raised, delta := TakeStep(phase, steps, k);
        if raised.Some? {
          WithPrefixTwice(put, [], StepsResult([], stopped, raised));
          return;
        }
        ghost var rest := RunSteps(downloadId, phase, stopped, steps[k + 1..]);
        WithPrefixTwice(put, delta, rest);
        ConcatAssoc(old(queue.items), put, delta);
        put := put + delta;
        k := k + 1;
      }
      raised := None;
    }

    /**
      The step at index `k`: a stop request or one hook call.  `delta` is
      what it puts; when nothing is raised, the rest of the phase runs on.
    */
    method TakeStep(phase: Phase, steps: seq<Step>, k: nat) returns (raised: Option<string>, ghost delta: seq<Update>)
      requires k < |steps|
      modifies this, queue
      ensures queue.items == old(queue.items) + delta
      ensures raised.Some? ==>
        RunSteps(downloadId, phase, old(stopped), steps[k..]) == StepsResult([], stopped, raised) && delta == []
      ensures raised.None? ==>
        RunSteps(downloadId, phase, old(stopped), steps[k..]) ==
          WithPrefix(delta, RunSteps(downloadId, phase, stopped, steps[k + 1..]))
    {
      RunStepsAt(downloadId, phase, stopped, steps, k);
      if steps[k].StopRequest? {
        Stop();
        raised, delta := None, [];
      } else {
        ghost var h := HookCall(downloadId, phase, stopped, steps[k].d);
        raised := CallHook(phase, steps[k].d);
        delta := if h.Emitted? then OptionToSeq(h.update) else [];
      }
    }

    /** `run`: the title fetch, the download, and the translation of an exception into an event. */
    method Run(lib: Library)
      modifies this, queue
      ensures queue.items == old(queue.items) + RunUpdates(downloadId, old(stopped), lib)
      ensures stopped == RunTry(downloadId, old(stopped), lib).stopped
    {
      var raised := TryBody(lib);
      if raised.Some? {
        queue.Put(Classify(downloadId, raised.value));
      }
    }

    /** The `try` block of `run`; the result is the exception that leaves it. */
    method TryBody(lib: Library) returns (raised: Option<string>)
      modifies this, queue
      ensures var r := RunTry(downloadId, old(stopped), lib);
        queue.items == old(queue.items) + r.updates && stopped == r.stopped && raised == r.raised
    {
      ghost var q0 := queue.items;
      InfoPhasePutsNothing(downloadId, stopped, lib.infoSteps);
      raised := RunHooks(InfoPhase, lib.infoSteps);
      assert queue.items == q0;
      if raised.None? {
        if lib.info.InfoError? {
          raised := Some(lib.info.message);
        } else {
          var title := TruncateTitle(lib.info.title);
          queue.Put(Title(downloadId, title));
          raised := RunHooks(DownloadPhase, lib.downloadSteps);
          if raised.None? {
            raised := lib.downloadError;
          }
        }
      }
    }
  }
}
