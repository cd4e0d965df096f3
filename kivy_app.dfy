/**
  The interface side of the Kivy application (youtube_downloader.py):
  `YouTubeDownloader` shows one `DownloadWidget` per download in the
  `update_box` and keeps the module-level registry `downloads_processes`
  from download ids to worker processes.  Every 0.1 s the clock calls
  `update_downloads`, which drains the queue into the widgets.

  `update_box.children` is the list `widgets`; Kivy's `add_widget` inserts a
  new child at the front of `children`, so a new widget is prepended.  Ids
  come from `str(random())` in the source; here they come from the counter
  `nextId`, so that a fresh id is one no widget or process has.
*/
module KivyApp {
  import opened Wrappers
  import opened Queues
  import opened Text
  import opened KivyWorkers

  /** The worker a process runs. */
  datatype Worker = VideoWorker | PlaylistWorker

  /** A process handle: the worker started and its arguments. */
  datatype Process = Process(target: Worker, url: string, format: string)

  /** A `DownloadWidget` as the loop sees it: id, label text, progress bar value. */
  datatype DownloadWidget = DownloadWidget(id: Id, text: string, progress: real)

  /** The widgets, the process registry and the next fresh id. */
  datatype DownloaderState = DownloaderState(
    widgets: seq<DownloadWidget>,
    processes: map<Id, Process>,
    nextId: Id)

  const PlaylistMarker := "list="

  /** The routing in `download`: a URL containing "list=" goes to the playlist worker. */
  function Route(url: string): (w: Worker)
    ensures w == PlaylistWorker <==> Contains(url, PlaylistMarker)
  {
    if Contains(url, PlaylistMarker) then PlaylistWorker else VideoWorker
  }

  /** A video opened from inside a playlist carries `list=` and is expanded as the whole playlist. */
  lemma VideoInPlaylistRoutesToPlaylist()
    ensures Route("https://www.youtube.com/watch?v=abc&list=PL1") == PlaylistWorker
  {
    var url := "https://www.youtube.com/watch?v=abc&list=PL1";
    assert url[36..41] == PlaylistMarker;
    assert OccursAt(url, PlaylistMarker, 36);
  }

  function WidgetIds(ws: seq<DownloadWidget>): set<Id> {
    set k | 0 <= k < |ws| :: ws[k].id
  }

  predicate DistinctIds(ws: seq<DownloadWidget>) {
    forall i, j :: 0 <= i < j < |ws| ==> ws[i].id != ws[j].id
  }

  /** Every registered id is below the next fresh one. */
  ghost predicate IdsBelow(st: DownloaderState) {
    forall id :: id in st.processes ==> id < st.nextId
  }

  /**
    What the code keeps true: widget ids are distinct, the registry has an
    entry exactly for the ids of the widgets shown, and every id is below
    the next fresh one.
  */
  ghost predicate Valid(st: DownloaderState) {
    && DistinctIds(st.widgets)
    && WidgetIds(st.widgets) == st.processes.Keys
    && IdsBelow(st)
  }

  /** `find_download_widget` on a list of widgets: the first one with the id. */
  function IndexOf(ws: seq<DownloadWidget>, id: Id): (r: Option<nat>)
    ensures r.Some? ==>
      r.value < |ws| && ws[r.value].id == id && forall k :: 0 <= k < r.value ==> ws[k].id != id
    ensures r.None? <==> id !in WidgetIds(ws)
    decreases |ws|
  {
    if ws == [] then None
    else if ws[0].id == id then Some(0)
    else
      var r := IndexOf(ws[1..], id);
      assert WidgetIds(ws) == {ws[0].id} + WidgetIds(ws[1..]) by {
        forall x | x in WidgetIds(ws) ensures x in {ws[0].id} + WidgetIds(ws[1..]) {
          var k :| 0 <= k < |ws| && ws[k].id == x;
          if k > 0 {
            assert ws[1..][k - 1].id == x;
          }
        }
        forall x | x in WidgetIds(ws[1..]) ensures x in WidgetIds(ws) {
          var k :| 0 <= k < |ws[1..]| && ws[1..][k].id == x;
          assert ws[k + 1].id == x;
        }
      }
      if r.None? then None else Some(r.value + 1)
  }

  function NewWidget(id: Id): DownloadWidget {
    DownloadWidget(id, "", 0.0)
  }

  /** `download(url, format)`. */
  function AddDownload(st: DownloaderState, url: string, format: string): DownloaderState {
    DownloaderState(
      [NewWidget(st.nextId)] + st.widgets,
      st.processes[st.nextId := Process(Route(url), url, format)],
      st.nextId + 1)
  }

  /** `download` once for each URL, in order. */
  function AddDownloads(st: DownloaderState, urls: seq<string>, format: string): DownloaderState
    decreases |urls|
  {
    if urls == [] then st else AddDownloads(AddDownload(st, urls[0], format), urls[1..], format)
  }

  /** `remove_download(id)`: drop the widget, if shown, and the registry entry. */
  function DropDownload(st: DownloaderState, id: Id): DownloaderState {
    var ws := match IndexOf(st.widgets, id)
      case None => st.widgets
      case Some(k) => st.widgets[..k] + st.widgets[k + 1..];
    DownloaderState(ws, st.processes - {id}, st.nextId)
  }

  /** One branch of the dispatch in `update_downloads`, for an event whose widget is shown. */
  function ApplyUpdate(st: DownloaderState, u: Update): DownloaderState
    requires IndexOf(st.widgets, u.id).Some?
  {
    var k := IndexOf(st.widgets, u.id).value;
    match u
    case Text(_, v) => st.(widgets := st.widgets[k := st.widgets[k].(text := v)])
    case Progress(_, v) => st.(widgets := st.widgets[k := st.widgets[k].(progress := v)])
    case Close(id) => DropDownload(st, id)
    case Playlist(_, format, urls) => AddDownloads(st, urls, format)
  }

  datatype DrainResult = DrainResult(state: DownloaderState, rest: seq<Update>)

  /**
    The `while not self.queue.empty()` loop: an event whose id has no widget
    is taken off the queue and dropped, and the loop returns at once.
  */
  function Drain(st: DownloaderState, q: seq<Update>): DrainResult
    decreases |q|
  {
    if q == [] then DrainResult(st, [])
    else if IndexOf(st.widgets, q[0].id).None? then DrainResult(st, q[1..])
    else Drain(ApplyUpdate(st, q[0]), q[1..])
  }

  // ---------------------------------------------------------------------
  // Lemmas about the operations

  lemma WidgetIdsCons(w: DownloadWidget, ws: seq<DownloadWidget>)
    ensures WidgetIds([w] + ws) == {w.id} + WidgetIds(ws)
  {
    var s := [w] + ws;
    assert s[0].id == w.id;
    forall x | x in WidgetIds(s) ensures x in {w.id} + WidgetIds(ws) {
      var k :| 0 <= k < |s| && s[k].id == x;
      if k > 0 {
        assert ws[k - 1].id == x;
      }
    }
    forall x | x in WidgetIds(ws) ensures x in WidgetIds(s) {
      var k :| 0 <= k < |ws| && ws[k].id == x;
      assert s[k + 1].id == x;
    }
  }

  /**
    `download` adds exactly one widget, at the front, under a fresh id, and
    registers exactly one process under that id, running the worker the URL
    is routed to; every other widget and registry entry is unchanged.
  */
  lemma AddDownloadFrame(st: DownloaderState, url: string, format: string)
    requires Valid(st)
    ensures var st' := AddDownload(st, url, format);
      && Valid(st')
      && st.nextId !in st.processes && st.nextId !in WidgetIds(st.widgets)
      && |st'.widgets| == |st.widgets| + 1
      && st'.widgets[0] == NewWidget(st.nextId) && st'.widgets[1..] == st.widgets
      && st'.processes.Keys == st.processes.Keys + {st.nextId}
      && (forall id :: id in st.processes ==> st'.processes[id] == st.processes[id])
      && st'.processes[st.nextId] == Process(Route(url), url, format)
      && (st'.processes[st.nextId].target == PlaylistWorker <==> Contains(url, PlaylistMarker))
  {
    var st' := AddDownload(st, url, format);
    WidgetIdsCons(NewWidget(st.nextId), st.widgets);
    assert st'.widgets[1..] == st.widgets;
    forall i, j | 0 <= i < j < |st'.widgets| ensures st'.widgets[i].id != st'.widgets[j].id {
      if i == 0 {
        assert st'.widgets[j].id in WidgetIds(st.widgets) by {
          assert st'.widgets[j] == st.widgets[j - 1];
        }
      } else {
        assert st'.widgets[i] == st.widgets[i - 1] && st'.widgets[j] == st.widgets[j - 1];
      }
    }
  }

  /**
    A `playlist` event adds one download per URL, in order: `len(urls)` new
    widgets in front of the old ones (the last URL's first), and a process
    under each new id running the worker its URL is routed to.
  */
  lemma AddDownloadsFrame(st: DownloaderState, urls: seq<string>, format: string)
    requires Valid(st)
    ensures var st' := AddDownloads(st, urls, format);
      && Valid(st')
      && st'.nextId == st.nextId + |urls|
      && |st'.widgets| == |st.widgets| + |urls|
      && st'.widgets[|urls|..] == st.widgets
      && (forall k :: 0 <= k < |urls| ==> st'.widgets[k] == NewWidget(st.nextId + |urls| - 1 - k))
      && (forall id :: id in st'.processes <==> id in st.processes || st.nextId <= id < st'.nextId)
      && (forall id :: id in st.processes ==> st'.processes[id] == st.processes[id])
      && forall k :: 0 <= k < |urls| ==>
           st'.processes[st.nextId + k] == Process(Route(urls[k]), urls[k], format)
  {
    AddDownloadsShape(st, urls, format);
    AddDownloadsRegistry(st, urls, format);
    AddDownloadsValid(st, urls, format);
  }

  /** The widgets and the next id after a `playlist` expansion. */
  lemma {:induction false} AddDownloadsShape(st: DownloaderState, urls: seq<string>, format: string)
    ensures var st' := AddDownloads(st, urls, format);
      && st'.nextId == st.nextId + |urls|
      && |st'.widgets| == |st.widgets| + |urls|
      && st'.widgets[|urls|..] == st.widgets
      && forall k :: 0 <= k < |urls| ==> st'.widgets[k] == NewWidget(st.nextId + |urls| - 1 - k)
    decreases |urls|
  {
    if urls != [] {
      var s1 := AddDownload(st, urls[0], format);
      AddDownloadsShape(s1, urls[1..], format);
      var st' := AddDownloads(s1, urls[1..], format);
      assert st'.widgets[|urls| - 1..] == s1.widgets;
      assert st'.widgets[|urls|..] == st'.widgets[|urls| - 1..][1..];
      assert st'.widgets[|urls| - 1] == s1.widgets[0];
    }
  }

  /** The registry after a `playlist` expansion. */
  lemma {:induction false} AddDownloadsRegistry(st: DownloaderState, urls: seq<string>, format: string)
    requires IdsBelow(st)
    ensures var st' := AddDownloads(st, urls, format);
      && (forall id :: id in st'.processes <==> id in st.processes || st.nextId <= id < st.nextId + |urls|)
      && (forall id :: id in st.processes ==> st'.processes[id] == st.processes[id])
      && forall k :: 0 <= k < |urls| ==>
           st'.processes[st.nextId + k] == Process(Route(urls[k]), urls[k], format)
    decreases |urls|
  {
    if urls != [] {
      var s1 := AddDownload(st, urls[0], format);
      AddDownloadsRegistry(s1, urls[1..], format);
      var st' := AddDownloads(s1, urls[1..], format);
      forall k | 0 <= k < |urls|
        ensures st'.processes[st.nextId + k] == Process(Route(urls[k]), urls[k], format)
      {
        if k > 0 {
          assert urls[1..][k - 1] == urls[k];
          assert s1.nextId + (k - 1) == st.nextId + k;
        }
      }
    }
  }

  /** A `playlist` expansion keeps the invariant. */
  lemma {:induction false} AddDownloadsValid(st: DownloaderState, urls: seq<string>, format: string)
    requires Valid(st)
    ensures Valid(AddDownloads(st, urls, format))
    decreases |urls|
  {
    if urls != [] {
      AddDownloadFrame(st, urls[0], format);
      AddDownloadsValid(AddDownload(st, urls[0], format), urls[1..], format);
    }
  }

  lemma WidgetIdsRemove(ws: seq<DownloadWidget>, k: nat)
    requires k < |ws| && DistinctIds(ws)
    ensures WidgetIds(ws[..k] + ws[k + 1..]) == WidgetIds(ws) - {ws[k].id}
    ensures DistinctIds(ws[..k] + ws[k + 1..])
  {
    var r := ws[..k] + ws[k + 1..];
    assert forall j :: 0 <= j < |r| ==> r[j] == if j < k then ws[j] else ws[j + 1];
    forall x | x in WidgetIds(ws) - {ws[k].id} ensures x in WidgetIds(r) {
      var j :| 0 <= j < |ws| && ws[j].id == x;
      if j < k {
        assert r[j].id == x;
      } else {
        assert r[j - 1].id == x;
      }
    }
  }

  /**
    `remove_download` (a `close` event or a click on the widget's x button):
    afterwards the id has neither a widget nor a registry entry, and every
    other widget and entry is kept, in order.
  */
  lemma DropDownloadFrame(st: DownloaderState, id: Id)
    requires Valid(st) && id in st.processes
    ensures var st' := DropDownload(st, id);
      && Valid(st')
      && id !in WidgetIds(st'.widgets) && id !in st'.processes
      && st'.processes == st.processes - {id}
      && |st'.widgets| == |st.widgets| - 1
      && exists k :: 0 <= k < |st.widgets| && st.widgets[k].id == id &&
           st'.widgets == st.widgets[..k] + st.widgets[k + 1..]
  {
    var k := IndexOf(st.widgets, id).value;
    var ws := st.widgets[..k] + st.widgets[k + 1..];
    assert DropDownload(st, id) == DownloaderState(ws, st.processes - {id}, st.nextId);
    WidgetIdsRemove(st.widgets, k);
    assert (st.processes - {id}).Keys == st.processes.Keys - {id};
  }

  /**
    `text` and `progress` events change the label or the bar of the one
    widget with the event's id and nothing else: no widget or registry
    entry is added or removed.
  */
  lemma TextProgressFrame(st: DownloaderState, u: Update)
    requires Valid(st) && (u.Text? || u.Progress?) && u.id in WidgetIds(st.widgets)
    ensures var st' := ApplyUpdate(st, u);
      var k := IndexOf(st.widgets, u.id).value;
      && Valid(st')
      && st'.processes == st.processes && st'.nextId == st.nextId
      && |st'.widgets| == |st.widgets|
      && (forall j :: 0 <= j < |st.widgets| && j != k ==> st'.widgets[j] == st.widgets[j])
      && st'.widgets[k].id == u.id
      && (u.Text? ==> st'.widgets[k].text == u.text && st'.widgets[k].progress == st.widgets[k].progress)
      && (u.Progress? ==> st'.widgets[k].progress == u.value && st'.widgets[k].text == st.widgets[k].text)
  {
    var k := IndexOf(st.widgets, u.id).value;
    var w := if u.Text? then st.widgets[k].(text := u.text) else st.widgets[k].(progress := u.value);
    var ws := st.widgets[k := w];
    assert ApplyUpdate(st, u) == st.(widgets := ws);
    assert forall j :: 0 <= j < |st.widgets| ==> ws[j].id == st.widgets[j].id;
    assert DistinctIds(ws);
    assert WidgetIds(ws) == WidgetIds(st.widgets);
    assert forall j :: 0 <= j < |st.widgets| && j != k ==> ws[j] == st.widgets[j];
  }

  /** Every dispatched event keeps the invariant. */
  lemma ApplyUpdateValid(st: DownloaderState, u: Update)
    requires Valid(st) && IndexOf(st.widgets, u.id).Some?
    ensures Valid(ApplyUpdate(st, u))
  {
    match u
    case Text(_, _) => TextProgressFrame(st, u);
    case Progress(_, _) => TextProgressFrame(st, u);
    case Close(id) => DropDownloadFrame(st, id);
    case Playlist(_, format, urls) => AddDownloadsFrame(st, urls, format);
  }

  /**
    The drain keeps the invariant and stops early only at an unknown id:
    what is left queued is a suffix of the queue, and when something is
    left, the event just before it had no widget in the final state (it
    was dropped and nothing changed after it).
  */
  lemma DrainStopsAtUnknown(st: DownloaderState, q: seq<Update>)
    requires Valid(st)
    ensures var r := Drain(st, q);
      var n := |q| - |r.rest|;
      && Valid(r.state)
      && |r.rest| <= |q| && r.rest == q[n..]
      && (r.rest != [] ==> n >= 1 && q[n - 1].id !in WidgetIds(r.state.widgets))
      && (r.rest != [] ==>
            Drain(st, q[..n - 1]) == DrainResult(r.state, []) && IndexOf(r.state.widgets, q[n - 1].id).None?)
  {
    DrainValid(st, q);
    DrainRest(st, q);
  }

  /** The drain keeps the invariant. */
  lemma {:induction false} DrainValid(st: DownloaderState, q: seq<Update>)
    requires Valid(st)
    ensures Valid(Drain(st, q).state)
    decreases |q|
  {
    if q != [] && IndexOf(st.widgets, q[0].id).Some? {
      ApplyUpdateValid(st, q[0]);
      DrainValid(ApplyUpdate(st, q[0]), q[1..]);
    }
  }

  /** What the drain leaves queued. */
  lemma {:induction false} DrainRest(st: DownloaderState, q: seq<Update>)
    ensures var r := Drain(st, q);
      var n := |q| - |r.rest|;
      && |r.rest| <= |q| && r.rest == q[n..]
      && (r.rest != [] ==> n >= 1 && q[n - 1].id !in WidgetIds(r.state.widgets))
      && (r.rest != [] ==>
            Drain(st, q[..n - 1]) == DrainResult(r.state, []) && IndexOf(r.state.widgets, q[n - 1].id).None?)
    decreases |q|
  {
    if q == [] {
    } else if IndexOf(st.widgets, q[0].id).None? {
      assert Drain(st, q) == DrainResult(st, q[1..]);
      assert q[..0] == [];
    } else {
      var st1 := ApplyUpdate(st, q[0]);
      assert Drain(st, q) == Drain(st1, q[1..]);
      DrainRest(st1, q[1..]);
      var r := Drain(st1, q[1..]);
      var n := |q| - |r.rest|;
      assert q[1..][n - 1..] == q[n..];
      if r.rest != [] {
        assert q[1..][n - 2] == q[n - 1];
        var p := q[..n - 1];
        assert p[0] == q[0] && p[1..] == q[1..][..n - 2];
        assert Drain(st, p) == Drain(st1, p[1..]);
      }
    }
  }

  /**
    A worker's own events, delivered while its widget is shown, are all
    consumed; the worker is removed from both the widgets and the registry
    exactly when its last event is `close`.
  */
  lemma {:induction false} DrainOwnEvents(st: DownloaderState, id: Id, q: seq<Update>)
    requires Valid(st) && id in WidgetIds(st.widgets)
    requires forall k :: 0 <= k < |q| ==> q[k].id == id
    requires forall k :: 0 <= k < |q| - 1 ==> !q[k].Close?
    ensures var r := Drain(st, q);
      && r.rest == []
      && (id in r.state.processes <==> !(q != [] && q[|q| - 1].Close?))
      && (id in WidgetIds(r.state.widgets) <==> !(q != [] && q[|q| - 1].Close?))
    decreases |q|
  {
    if q != [] {
      var st1 := ApplyUpdate(st, q[0]);
      ApplyUpdateValid(st, q[0]);
      if q[0].Close? {
        DropDownloadFrame(st, id);
        assert |q| == 1;
      } else {
        assert id in WidgetIds(st1.widgets) by {
          match q[0]
          case Text(_, _) => TextProgressFrame(st, q[0]);
          case Progress(_, _) => TextProgressFrame(st, q[0]);
          case Playlist(_, format, urls) => AddDownloadsFrame(st, urls, format);
        }
        assert forall k :: 0 <= k < |q[1..]| ==> q[1..][k] == q[k + 1];
        DrainOwnEvents(st1, id, q[1..]);
      }
    }
  }

  /** A video worker's events, drained while its widget is shown, remove it. */
  lemma VideoWorkerRemovesItself(st: DownloaderState, id: Id, outcome: VideoOutcome)
    requires Valid(st) && id in WidgetIds(st.widgets)
    ensures var r := Drain(st, VideoEvents(id, outcome));
      r.rest == [] && id !in r.state.processes && id !in WidgetIds(r.state.widgets)
  {
    VideoEventsShape(id, outcome);
    DrainOwnEvents(st, id, VideoEvents(id, outcome));
  }

  /**
    The playlist worker as written leaks after any pytube failure: its
    widget and its registry entry stay after all its events have been
    drained, exactly when the playlist could not be read.
  */
  lemma FailedPlaylistStaysRegistered(st: DownloaderState, id: Id, format: string, outcome: PlaylistOutcome)
    requires Valid(st) && id in WidgetIds(st.widgets)
    ensures var r := Drain(st, PlaylistEventsAsWritten(id, format, outcome));
      && r.rest == []
      && (id in r.state.processes <==> !outcome.PlaylistFetched?)
      && (id in WidgetIds(r.state.widgets) <==> !outcome.PlaylistFetched?)
  {
    var u := PlaylistEventsAsWritten(id, format, outcome);
    if outcome.PlaylistFetched? {
      PlaylistSuccessShape(id, format, outcome.title, outcome.urls);
    }
    DrainOwnEvents(st, id, u);
  }

  /** The intended playlist worker always removes itself. */
  lemma PlaylistWorkerRemovesItself(st: DownloaderState, id: Id, format: string, outcome: PlaylistOutcome)
    requires Valid(st) && id in WidgetIds(st.widgets)
    ensures var r := Drain(st, PlaylistEvents(id, format, outcome));
      r.rest == [] && id !in r.state.processes && id !in WidgetIds(r.state.widgets)
  {
    PlaylistEventsCloseOnce(id, format, outcome);
    DrainOwnEvents(st, id, PlaylistEvents(id, format, outcome));
  }

  // ---------------------------------------------------------------------
  // The interface object

  class YouTubeDownloader {
    const queue: Queue<Update>
    /** `self.ids.update_box.children`. */
    var widgets: seq<DownloadWidget>
    /** The module-level `downloads_processes`. */
    var processes: map<Id, Process>
    var nextId: Id

    function State(): DownloaderState
      reads this
    {
      DownloaderState(widgets, processes, nextId)
    }

    constructor (queue: Queue<Update>)
      ensures this.queue == queue && State() == DownloaderState([], map[], 0) && Valid(State())
    {
      this.queue := queue;
      widgets := [];
      processes := map[];
      nextId := 0;
    }

    /** `download`: a widget and a process for `url`.  Starting the process is not modelled. */
    method Download(url: string, format: string)
      modifies this
      ensures State() == AddDownload(old(State()), url, format)
      ensures Valid(old(State())) ==> Valid(State())
    {
      if Valid(State()) {
        AddDownloadFrame(State(), url, format);
      }
      var uniqueId := nextId;
      nextId := nextId + 1;
      widgets := [NewWidget(uniqueId)] + widgets;
      processes := processes[uniqueId := Process(Route(url), url, format)];
    }

    /** `find_download_widget`: the index of the first child with the id, if any. */
    method FindDownloadWidget(id: Id) returns (r: Option<nat>)
      ensures r.Some? ==>
        r.value < |widgets| && widgets[r.value].id == id &&
        forall k :: 0 <= k < r.value ==> widgets[k].id != id
      ensures r.None? <==> forall k :: 0 <= k < |widgets| ==> widgets[k].id != id
      ensures r == IndexOf(widgets, id)
    {
      var k := 0;
      while k < |widgets|
        invariant 0 <= k <= |widgets|
        invariant forall j :: 0 <= j < k ==> widgets[j].id != id
      {
        if widgets[k].id == id {
          r := Some(k);
          IndexOfUnique(widgets, id, k);
          return;
        }
        k := k + 1;
      }
      r := None;
    }

    /** `remove_download`; `dict.pop` without a default needs the id registered. */
    method RemoveDownload(id: Id)
      requires id in processes
      modifies this
      ensures State() == DropDownload(old(State()), id)
      ensures Valid(old(State())) ==> Valid(State())
    {
      if Valid(State()) {
        DropDownloadFrame(State(), id);
      }
      var w := FindDownloadWidget(id);
      if w.Some? {
        widgets := widgets[..w.value] + widgets[w.value + 1..];
      }
      processes := processes - {id};
    }

    /** `handle_x_click` on the x button of the widget with id `id`. */
    method HandleXClick(id: Id)
      requires Valid(State()) && id in WidgetIds(widgets)
      modifies this
      ensures State() == DropDownload(old(State()), id) && Valid(State())
      ensures id !in WidgetIds(widgets) && id !in processes
    {
      DropDownloadFrame(State(), id);
      RemoveDownload(id);
    }

    /** `update_downloads`. */
    method UpdateDownloads()
      requires Valid(State())
      modifies this, queue
      ensures var r := Drain(old(State()), old(queue.items));
        State() == r.state && queue.items == r.rest
      ensures Valid(State())
    {
      ghost var st0 := State();
      ghost var q0 := queue.items;
      while !queue.Empty()
        invariant Valid(State())
        invariant Drain(State(), queue.items) == Drain(st0, q0)
        decreases |queue.items|
      {
        var update := queue.Get();
        var w := FindDownloadWidget(update.id);
        if w.None? {
          return;
        }
        ghost var before := State();
        ApplyUpdateValid(before, update);
        match update {
          case Text(_, v) =>
            widgets := widgets[w.value := widgets[w.value].(text := v)];
          case Progress(_, v) =>
            widgets := widgets[w.value := widgets[w.value].(progress := v)];
          case Close(id) =>
            RemoveDownload(id);
          case Playlist(_, format, urls) =>
            ghost var rest := queue.items;
            for i := 0 to |urls|
              invariant queue.items == rest
              invariant Valid(State())
              invariant AddDownloads(State(), urls[i..], format) == AddDownloads(before, urls, format)
            {
              assert urls[i..][1..] == urls[i + 1..];
              Download(urls[i], format);
            }
        }
        assert State() == ApplyUpdate(before, update);
      }
    }
  }

  /** The first index with an id is the only index with it before any other. */
  lemma IndexOfUnique(ws: seq<DownloadWidget>, id: Id, k: nat)
    requires k < |ws| && ws[k].id == id && forall j :: 0 <= j < k ==> ws[j].id != id
    ensures IndexOf(ws, id) == Some(k)
  {
    var r := IndexOf(ws, id);
    assert id in WidgetIds(ws);
  }
}
