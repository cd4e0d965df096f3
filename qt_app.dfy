/**
  The interface side of the Qt application (main.py): `VideoDownloaderApp`
  keeps one entry per download it started, keyed by the download's id, and
  every 500 ms its timer calls `update_downloads`, which first retires the
  entries marked finished and then drains the event queue into the entries.

  An entry's widget is represented by what the events write into it (the
  label text and the last value given to the progress bar) and by where it
  is in its life: status `Removed` stands for the widget having been taken
  off the list, and `deleteLater()` destroys it once the tick is over.
*/
module QtApp {
  import opened Wrappers
  import opened Queues
  import QtWorker

  type Id = QtWorker.Id

  datatype Status = Downloading | Finished | Removed

  /**
    The life of an entry's Qt widget: shown, taken off the list with
    `deleteLater()` called on it in this tick, or destroyed once control
    went back to the event loop.  PyQt raises RuntimeError on any call on a
    destroyed widget (or on its label and progress bar, which go with it).
  */
  datatype WidgetState = Live | DeletePending | Deleted

  /** The dictionary `self.downloads[id]`: item, thread and status. */
  datatype Entry = Entry(
    thread: QtWorker.DownloadThread,
    status: Status,
    widget: WidgetState,
    text: string,
    progress: Option<nat>)

  const InitialText := "Downloading..."

  /** A finished entry whose widget is already destroyed: `removeWidget` on it raises. */
  predicate Stale(e: Entry) {
    e.status == Finished && e.widget == Deleted
  }

  /** The removal sweep meets a destroyed widget and raises RuntimeError. */
  predicate SweepRaises(m: map<Id, Entry>) {
    exists id :: id in m && Stale(m[id])
  }

  /** The removal sweep on one entry: `removeWidget`, `deleteLater`, status `removed`. */
  function Sweep(e: Entry): Entry {
    if e.status == Finished then e.(status := Removed, widget := DeletePending) else e
  }

  /**
    The removal sweep: every entry finished at the start of the tick is
    removed and its widget scheduled for deletion; every other entry stays.
  */
  function SweepAll(m: map<Id, Entry>): (r: map<Id, Entry>)
    ensures r.Keys == m.Keys
    ensures forall id :: id in m ==>
      && r[id].status == (if m[id].status == Finished then Removed else m[id].status)
      && r[id].widget == (if m[id].status == Finished then DeletePending else m[id].widget)
      && r[id].thread == m[id].thread && r[id].text == m[id].text
      && r[id].progress == m[id].progress
  {
    map id | id in m :: Sweep(m[id])
  }

  /** The sweep part way through: the entries in `todo` are not visited yet. */
  function SweepExcept(m: map<Id, Entry>, todo: set<Id>): map<Id, Entry> {
    map id | id in m :: if id in todo then m[id] else Sweep(m[id])
  }

  /** Control back in the event loop: the widgets `deleteLater` scheduled are destroyed. */
  function Settle(m: map<Id, Entry>): (r: map<Id, Entry>)
    ensures r.Keys == m.Keys
    ensures forall id :: id in m ==>
      && r[id].widget == (if m[id].widget == DeletePending then Deleted else m[id].widget)
      && r[id] == m[id].(widget := r[id].widget)
  {
    map id | id in m :: if m[id].widget == DeletePending then m[id].(widget := Deleted) else m[id]
  }

  /** One branch of the dispatch in `update_downloads`. */
  function ApplyUpdate(e: Entry, u: QtWorker.Update): Entry {
    match u
    case Title(_, t) => e.(text := t)
    case Progress(_, p) => e.(progress := Some(p))
    case Finished(_) => e.(text := "Download Finished", status := Finished)
    case Error(_, _) => e.(text := "Download Error", status := Finished)
    case Cancelled(_) => e.(text := "Download Cancelled", status := Finished)
  }

  predicate IsTerminal(u: QtWorker.Update) {
    u.Finished? || u.Error? || u.Cancelled?
  }

  /**
    An event the dispatch handles without raising: its id has an entry
    (otherwise KeyError) whose widget is not destroyed (otherwise
    RuntimeError, since every branch first writes to the widget).
  */
  predicate Dispatchable(m: map<Id, Entry>, u: QtWorker.Update) {
    u.downloadId in m && m[u.downloadId].widget != Deleted
  }

  /** The entries afterwards, the events still queued, and whether an exception escaped. */
  datatype DrainResult = DrainResult(downloads: map<Id, Entry>, rest: seq<QtWorker.Update>, raised: bool)

  /**
    The `while not downloads_queue.empty()` loop: events are applied in
    order; an event that is not dispatchable raises after it has been taken
    off the queue, and the events behind it stay queued.
  */
  function Drain(m: map<Id, Entry>, q: seq<QtWorker.Update>): DrainResult
    decreases |q|
  {
    if q == [] then DrainResult(m, [], false)
    else if !Dispatchable(m, q[0]) then DrainResult(m, q[1..], true)
    else Drain(m[q[0].downloadId := ApplyUpdate(m[q[0].downloadId], q[0])], q[1..])
  }

  /**
    One call of `update_downloads` and the return to the event loop: the
    sweep, then the drain, then the scheduled deletions.  When the sweep
    raises, nothing is drained.
  */
  function Tick(m: map<Id, Entry>, q: seq<QtWorker.Update>): DrainResult {
    if SweepRaises(m) then DrainResult(m, q, true)
    else
      var r := Drain(SweepAll(m), q);
      r.(downloads := Settle(r.downloads))
  }

  ghost predicate AllDispatchable(m: map<Id, Entry>, q: seq<QtWorker.Update>) {
    forall k :: 0 <= k < |q| ==> Dispatchable(m, q[k])
  }

  ghost predicate HasTerminalFor(q: seq<QtWorker.Update>, id: Id) {
    exists k :: 0 <= k < |q| && q[k].downloadId == id && IsTerminal(q[k])
  }

  // ---------------------------------------------------------------------
  // Lemmas

  /** The drain never adds or deletes an entry, and never touches a widget's life. */
  lemma {:induction false} DrainKeepsKeys(m: map<Id, Entry>, q: seq<QtWorker.Update>)
    ensures Drain(m, q).downloads.Keys == m.Keys
    ensures forall id :: id in m ==> Drain(m, q).downloads[id].widget == m[id].widget
    decreases |q|
  {
    if q != [] && Dispatchable(m, q[0]) {
      var id := q[0].downloadId;
      DrainKeepsKeys(m[id := ApplyUpdate(m[id], q[0])], q[1..]);
    }
  }

  /** Applying a dispatched event changes no event's dispatchability. */
  lemma ApplyKeepsDispatch(m: map<Id, Entry>, u: QtWorker.Update)
    requires Dispatchable(m, u)
    ensures forall x :: Dispatchable(m[u.downloadId := ApplyUpdate(m[u.downloadId], u)], x) == Dispatchable(m, x)
  {
  }

  /** An exception escapes exactly when some queued event is not dispatchable. */
  lemma {:induction false} DrainRaisesIff(m: map<Id, Entry>, q: seq<QtWorker.Update>)
    ensures Drain(m, q).raised <==> !AllDispatchable(m, q)
    ensures !Drain(m, q).raised ==> Drain(m, q).rest == []
    decreases |q|
  {
    if q != [] && Dispatchable(m, q[0]) {
      var m' := m[q[0].downloadId := ApplyUpdate(m[q[0].downloadId], q[0])];
      ApplyKeepsDispatch(m, q[0]);
      DrainRaisesIff(m', q[1..]);
      assert forall k :: 0 < k < |q| ==> q[k] == q[1..][k - 1];
    }
  }

  /** A witness for the drain after the first event is one for the whole queue, one further on. */
  lemma RaisedShift(m: map<Id, Entry>, q: seq<QtWorker.Update>, k: nat)
    requires q != [] && Dispatchable(m, q[0]) && k < |q| - 1
    requires var m' := m[q[0].downloadId := ApplyUpdate(m[q[0].downloadId], q[0])];
      !Dispatchable(m', q[1..][k]) && AllDispatchable(m', q[1..][..k])
    ensures !Dispatchable(m, q[k + 1]) && AllDispatchable(m, q[..k + 1]) && q[1..][k + 1..] == q[k + 2..]
  {
    ApplyKeepsDispatch(m, q[0]);
    assert q[..k + 1] == [q[0]] + q[1..][..k];
  }

  /** When an exception escapes, the events behind the first undispatchable one stay queued. */
  lemma {:induction false} DrainRaisedRest(m: map<Id, Entry>, q: seq<QtWorker.Update>)
    ensures Drain(m, q).raised ==>
      exists k :: 0 <= k < |q| && !Dispatchable(m, q[k]) && AllDispatchable(m, q[..k]) && Drain(m, q).rest == q[k + 1..]
    decreases |q|
  {
    if q != [] {
      if !Dispatchable(m, q[0]) {
        assert q[..0] == [];
      } else {
        var m' := m[q[0].downloadId := ApplyUpdate(m[q[0].downloadId], q[0])];
        DrainRaisedRest(m', q[1..]);
        var r := Drain(m', q[1..]);
        if r.raised {
          var k :| 0 <= k < |q[1..]| && !Dispatchable(m', q[1..][k]) && AllDispatchable(m', q[1..][..k]) &&
            r.rest == q[1..][k + 1..];
          RaisedShift(m, q, k);
        }
      }
    }
  }

  /**
    An exception escapes exactly when some queued event has no entry or a
    destroyed widget; otherwise the queue is left empty.  When it escapes,
    the events behind the first such one are left queued.
  */
  lemma DrainRaisesOnlyOnUnknown(m: map<Id, Entry>, q: seq<QtWorker.Update>)
    ensures var r := Drain(m, q);
      && (r.raised <==> !AllDispatchable(m, q))
      && (!r.raised ==> r.rest == [])
      && (r.raised ==>
            exists k :: 0 <= k < |q| && !Dispatchable(m, q[k]) && AllDispatchable(m, q[..k]) && r.rest == q[k + 1..])
  {
    DrainRaisesIff(m, q);
    DrainRaisedRest(m, q);
  }

  /**
    With every queued event dispatchable, an entry ends `Finished` exactly
    when a `finished`, `error` or `cancelled` event for it was queued, and
    keeps its status otherwise: `title` and `progress` events never change a
    status.
  */
  lemma {:induction false} DrainStatus(m: map<Id, Entry>, q: seq<QtWorker.Update>, id: Id)
    requires AllDispatchable(m, q) && id in m
    ensures id in Drain(m, q).downloads
    ensures Drain(m, q).downloads[id].status ==
      if HasTerminalFor(q, id) then Finished else m[id].status
    decreases |q|
  {
    DrainKeepsKeys(m, q);
    if q != [] {
      var x := q[0].downloadId;
      var m' := m[x := ApplyUpdate(m[x], q[0])];
      assert AllDispatchable(m', q[1..]) by {
        assert forall k :: 0 <= k < |q[1..]| ==> q[1..][k] == q[k + 1];
      }
      DrainStatus(m', q[1..], id);
      assert HasTerminalFor(q, id) <==> (x == id && IsTerminal(q[0])) || HasTerminalFor(q[1..], id) by {
        if HasTerminalFor(q, id) && !(x == id && IsTerminal(q[0])) {
          var k :| 0 <= k < |q| && q[k].downloadId == id && IsTerminal(q[k]);
          assert q[1..][k - 1] == q[k];
        }
        if HasTerminalFor(q[1..], id) {
          var k :| 0 <= k < |q[1..]| && q[1..][k].downloadId == id && IsTerminal(q[1..][k]);
          assert q[k + 1] == q[1..][k];
        }
      }
    }
  }

  /**
    The sweep runs before the drain: a job that finishes during a tick is
    still shown as finished after that tick, and is removed by the next one
    when no new event for it arrives.
  */
  lemma FinishedJobIsRemovedNextTick(
    m: map<Id, Entry>, q: seq<QtWorker.Update>, q2: seq<QtWorker.Update>, id: Id)
    requires id in m && m[id].status == Downloading && m[id].widget == Live
    requires !SweepRaises(m) && AllDispatchable(SweepAll(m), q) && HasTerminalFor(q, id)
    requires !SweepRaises(Tick(m, q).downloads)
    requires AllDispatchable(SweepAll(Tick(m, q).downloads), q2) && !HasTerminalFor(q2, id)
    ensures var t1 := Tick(m, q).downloads;
      id in t1 && t1[id].status == Finished &&
      id in Tick(t1, q2).downloads && Tick(t1, q2).downloads[id].status == Removed
  {
    var s := SweepAll(m);
    DrainStatus(s, q, id);
    DrainKeepsKeys(s, q);
    var t1 := Tick(m, q).downloads;
    var s2 := SweepAll(t1);
    DrainStatus(s2, q2, id);
    DrainKeepsKeys(s2, q2);
  }

  /**
    An `error` that follows the `finished` event (a post-processing failure,
    say) and is put after the tick that drained `finished` is drained in
    the tick whose sweep removed the entry: that sweep's `join()` waits for
    the thread, so it arrives no later.  It marks the entry finished again
    while its widget is being deleted, and the next tick's sweep calls
    `removeWidget` on the destroyed widget and raises.
  */
  lemma ErrorAfterFinishedCrashesNextTick(
    m: map<Id, Entry>, id: Id, message: string, q2: seq<QtWorker.Update>)
    requires id in m && m[id].status == Finished && m[id].widget == Live
    requires !SweepRaises(m)
    ensures var t1 := Tick(m, [QtWorker.Error(id, message)]);
      && !t1.raised && id in t1.downloads
      && t1.downloads[id].status == Finished && t1.downloads[id].widget == Deleted
      && Tick(t1.downloads, q2) == DrainResult(t1.downloads, q2, true)
  {
    var s := SweepAll(m);
    var q := [QtWorker.Error(id, message)];
    assert s[id].status == Removed && s[id].widget == DeletePending;
    assert Drain(s, q) == Drain(s[id := ApplyUpdate(s[id], q[0])], []);
    var t1 := Tick(m, q).downloads;
    assert Stale(t1[id]);
  }

  /** Once an entry's widget is destroyed, any event for it raises instead of being shown. */
  lemma EventForDeletedWidgetRaises(m: map<Id, Entry>, u: QtWorker.Update)
    requires u.downloadId in m && m[u.downloadId].widget == Deleted
    ensures Tick(m, [u]).raised
  {
    if !SweepRaises(m) {
      var s := SweepAll(m);
      assert s[u.downloadId].widget == Deleted;
      assert [u][1..] == [];
    }
  }

  /** An empty queue: the tick is the sweep and the deletions alone. */
  lemma EmptyQueueTickOnlySweeps(m: map<Id, Entry>)
    requires !SweepRaises(m)
    ensures Tick(m, []) == DrainResult(Settle(SweepAll(m)), [], false)
  {
  }

  // ---------------------------------------------------------------------
  // The application object

  class VideoDownloaderApp {
    /** The module-level `downloads_queue` shared with every thread. */
    const queue: Queue<QtWorker.Update>
    /** `self.downloads`. */
    var downloads: map<Id, Entry>

    constructor (queue: Queue<QtWorker.Update>)
      ensures this.queue == queue && downloads == map[]
    {
      this.queue := queue;
      downloads := map[];
    }

    /**
      `download`: a new thread for `url` under the fresh id `id` (the source
      draws it from `uuid4()`), recorded as downloading.  Starting the thread
      is not modelled; its behaviour is `DownloadThread.Run`.
    */
    method Download(id: Id, url: string, format: string) returns (thread: QtWorker.DownloadThread)
      requires id !in downloads
      modifies this
      ensures fresh(thread) && !thread.stopped
      ensures thread.url == url && thread.downloadId == id && thread.format == format
      ensures thread.queue == queue
      ensures downloads == old(downloads)[id := Entry(thread, Downloading, Live, InitialText, None)]
      ensures downloads.Keys == old(downloads).Keys + {id}
    {
      thread := new QtWorker.DownloadThread(url, id, format, queue);
      downloads := downloads[id := Entry(thread, Downloading, Live, InitialText, None)];
    }

    /**
      `update_downloads`, followed by the event loop destroying the widgets
      it scheduled for deletion.  `raised` reports the exception that
      escapes: RuntimeError from the sweep or the dispatch on a destroyed
      widget, or KeyError for an event whose id has no entry; the entries
      keep the changes made before it.
    */
    method UpdateDownloads() returns (raised: bool)
      modifies this, queue
      ensures var r := Tick(old(downloads), old(queue.items));
        downloads == r.downloads && queue.items == r.rest && raised == r.raised
      ensures downloads.Keys == old(downloads).Keys
    {
      ghost var q0 := queue.items;
      raised := RemoveFinished();
      if raised {
        return;
      }
      ghost var s := downloads;
      DrainKeepsKeys(s, q0);
      while !raised && !queue.Empty()
        invariant !raised ==> Drain(downloads, queue.items) == Drain(s, q0)
        invariant raised ==> DrainResult(downloads, queue.items, true) == Drain(s, q0)
        decreases |queue.items|, if raised then 0 else 1
      {
        var data := queue.Get();
        var id := data.downloadId;
        if id !in downloads || downloads[id].widget == Deleted {
          raised := true;
        } else {
          downloads := downloads[id := ApplyUpdate(downloads[id], data)];
        }
      }
      downloads := Settle(downloads);
    }

    /**
      The first loop of `update_downloads`: every finished entry is marked
      removed and its widget scheduled for deletion.  A finished entry whose
      widget is already destroyed raises; the model then leaves every entry
      as it was.
    */
    method RemoveFinished() returns (raised: bool)
      modifies this
      ensures raised == SweepRaises(old(downloads))
      ensures raised ==> downloads == old(downloads)
      ensures !raised ==> downloads == SweepAll(old(downloads))
    {
      var d := downloads;
      var todo := d.Keys;
      while todo != {}
        invariant todo <= downloads.Keys
        invariant d == SweepExcept(downloads, todo)
        invariant forall id :: id in downloads && id !in todo ==> !Stale(downloads[id])
        decreases |todo|
      {
        var id :| id in todo;
        if d[id].status == Finished {
          if d[id].widget == Deleted {
            assert Stale(downloads[id]);
            return true;
          }
          d := d[id := Sweep(d[id])];
        }
        assert d == SweepExcept(downloads, todo - {id});
        todo := todo - {id};
      }
      downloads := d;
      raised := false;
    }

    /**
      `cancel_download`: raise the thread's stop flag.  `raised` is the
      KeyError for an id that was never submitted; since entries are never
      deleted, every submitted id stays cancellable.
    */
    method CancelDownload(id: Id) returns (raised: bool)
      modifies if id in downloads then {downloads[id].thread} else {}
      ensures raised <==> id !in downloads
      ensures !raised ==> downloads[id].thread.stopped
    {
      if id !in downloads {
        return true;
      }
      downloads[id].thread.Stop();
      raised := false;
    }
  }
}
