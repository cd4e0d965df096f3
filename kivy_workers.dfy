/**
  The worker processes of the Kivy application (youtube_downloader.py):
  `do_download_video` and `do_download_playlist`, each run in its own process
  and reporting through the shared queue.

  pytube is not modelled; what it does is given as an outcome value.  The one
  second `sleep` before the closing event is left out.
*/
module KivyWorkers {
  import opened Wrappers
  import opened Text
  import opened Queues

  /** `str(random())`, drawn once per download. */
  type Id = nat

  /** The dictionaries put on the queue, by their 'type' key. */
  datatype Update =
    | Text(id: Id, text: string)
    | Progress(id: Id, value: real)
    | Close(id: Id)
    | Playlist(id: Id, format: string, urls: seq<string>)

  const DownloadingVideo := "Downloading video"
  const CouldNotDownload := "Couldn't download video"
  const ProcessingPlaylist := "Processing playlist url"
  const CouldNotProcess := "Couldn't process playlist url"

  /**
    What pytube does for one video: either building `YouTube(url)` or
    reading its title raises, or the title is read, the download reports
    the given fractions through `on_progress`, and then maybe raises.
  */
  datatype VideoOutcome =
    | FetchFailed
    | Fetched(title: string, progress: seq<real>, downloadFailed: bool)

  /**
    What pytube does for a playlist: `Playlist(url)` or its `video_urls`
    raise inside the `try`; or they succeed and reading `.title` afterwards,
    outside the `try`, raises; or all three succeed.
  */
  datatype PlaylistOutcome =
    | PlaylistFailed
    | TitleFailed(urls: seq<string>)
    | PlaylistFetched(title: string, urls: seq<string>)

  /** One `progress` event per call of `on_progress`. */
  function ProgressEvents(id: Id, progress: seq<real>): (r: seq<Update>)
    ensures |r| == |progress|
    decreases |progress|
  {
    if progress == [] then [] else [Progress(id, progress[0])] + ProgressEvents(id, progress[1..])
  }

  /** The k-th `progress` event carries the k-th fraction. */
  lemma {:induction false} ProgressEventsIndex(id: Id, progress: seq<real>)
    ensures forall k :: 0 <= k < |progress| ==> ProgressEvents(id, progress)[k] == Progress(id, progress[k])
    decreases |progress|
  {
    if progress != [] {
      ProgressEventsIndex(id, progress[1..]);
      var r := ProgressEvents(id, progress);
      forall k | 0 < k < |progress| ensures r[k] == Progress(id, progress[k]) {
        assert r[k] == ProgressEvents(id, progress[1..])[k - 1];
      }
    }
  }

  /** The events `do_download_video` puts. */
  function VideoEvents(id: Id, outcome: VideoOutcome): seq<Update> {
    [Text(id, DownloadingVideo)] +
    (match outcome
     case FetchFailed => [Text(id, CouldNotDownload)]
     case Fetched(title, progress, failed) =>
       [Text(id, title)] + ProgressEvents(id, progress) +
       (if failed then [Text(id, CouldNotDownload)] else [])) +
    [Close(id)]
  }

  /** The text shown once a playlist has been read: `f'{title} ({len(urls)} items)'`. */
  function PlaylistSummary(title: string, urls: seq<string>): string {
    title + " (" + NatToString(|urls|) + " items)"
  }

  /**
    The events `do_download_playlist` puts, as written.  After a failed fetch
    the handler falls through to line 144, where `playlist_object` or `urls`
    is unbound, or `.title` raises again: the process dies there, before
    `close`.  A title read that raises on its own kills the process at the
    same line, before anything but the first text was put.
  */
  function PlaylistEventsAsWritten(id: Id, format: string, outcome: PlaylistOutcome): seq<Update> {
    match outcome
    case PlaylistFailed => [Text(id, ProcessingPlaylist), Text(id, CouldNotProcess)]
    case TitleFailed(_) => [Text(id, ProcessingPlaylist)]
    case PlaylistFetched(title, urls) =>
      [Text(id, ProcessingPlaylist), Text(id, PlaylistSummary(title, urls)),
       Progress(id, 1.0), Playlist(id, format, urls), Close(id)]
  }

  /**
    The evidently intended playlist worker: the title is read inside the
    `try`, and after reporting any failure it closes, as `do_download_video`
    does.
  */
  function PlaylistEvents(id: Id, format: string, outcome: PlaylistOutcome): seq<Update> {
    match outcome
    case PlaylistFailed => [Text(id, ProcessingPlaylist), Text(id, CouldNotProcess), Close(id)]
    case TitleFailed(_) => [Text(id, ProcessingPlaylist), Text(id, CouldNotProcess), Close(id)]
    case PlaylistFetched(_, _) => PlaylistEventsAsWritten(id, format, outcome)
  }

  /** Every event is for job `id`, and exactly the last one is `close`. */
  ghost predicate ClosesOnce(id: Id, u: seq<Update>) {
    && u != []
    && (forall k :: 0 <= k < |u| ==> u[k].id == id)
    && u[|u| - 1] == Close(id)
    && forall k :: 0 <= k < |u| - 1 ==> !u[k].Close?
  }

  // ---------------------------------------------------------------------
  // Lemmas

  /**
    A video worker ends with exactly one `close`, whether pytube succeeds or
    raises; it starts with "Downloading video", then the title when the
    title could be read; a failure shows "Couldn't download video" just
    before the `close`; it never asks for a playlist expansion.
  */
  lemma VideoEventsShape(id: Id, outcome: VideoOutcome)
    ensures var u := VideoEvents(id, outcome);
      && ClosesOnce(id, u)
      && u[0] == Text(id, DownloadingVideo)
      && (outcome.Fetched? ==> u[1] == Text(id, outcome.title))
      && (outcome.FetchFailed? || outcome.downloadFailed ==> u[|u| - 2] == Text(id, CouldNotDownload))
      && (outcome.Fetched? && !outcome.downloadFailed ==>
            |u| == |outcome.progress| + 3 &&
            forall k :: 2 <= k < |u| - 1 ==> u[k] == Progress(id, outcome.progress[k - 2]))
      && forall k :: 0 <= k < |u| ==> !u[k].Playlist?
  {
    var u := VideoEvents(id, outcome);
    match outcome
    case FetchFailed =>
    case Fetched(title, progress, failed) =>
      var p := ProgressEvents(id, progress);
      ProgressEventsIndex(id, progress);
      var tail := if failed then [Text(id, CouldNotDownload)] else [];
      assert u == [Text(id, DownloadingVideo), Text(id, title)] + p + tail + [Close(id)];
      assert forall k :: 2 <= k < 2 + |p| ==> u[k] == p[k - 2];
  }

  /**
    A playlist that could be read: "Processing playlist url", the title with
    the item count, a full bar, the expansion, and `close`.
  */
  lemma PlaylistSuccessShape(id: Id, format: string, title: string, urls: seq<string>)
    ensures var u := PlaylistEventsAsWritten(id, format, PlaylistFetched(title, urls));
      && ClosesOnce(id, u)
      && u == [Text(id, ProcessingPlaylist), Text(id, title + " (" + NatToString(|urls|) + " items)"),
               Progress(id, 1.0), Playlist(id, format, urls), Close(id)]
  {
    var outcome := PlaylistFetched(title, urls);
    PlaylistEventsCloseOnce(id, format, outcome);
    assert PlaylistEvents(id, format, outcome) == PlaylistEventsAsWritten(id, format, outcome);
  }

  /**
    As written, a playlist worker whose fetch fails sends "Processing
    playlist url" and the failure text, and never `close`.
  */
  lemma PlaylistFailureNeverCloses(id: Id, format: string)
    ensures var u := PlaylistEventsAsWritten(id, format, PlaylistFailed);
      && u == [Text(id, ProcessingPlaylist), Text(id, CouldNotProcess)]
      && forall k :: 0 <= k < |u| ==> !u[k].Close?
  {
  }

  /**
    As written, a playlist worker whose title read raises sends only
    "Processing playlist url": no failure text and no `close`.
  */
  lemma PlaylistTitleFailureNeverCloses(id: Id, format: string, urls: seq<string>)
    ensures PlaylistEventsAsWritten(id, format, TitleFailed(urls)) == [Text(id, ProcessingPlaylist)]
  {
  }

  /** The intended playlist worker ends with exactly one `close` on every outcome. */
  lemma PlaylistEventsCloseOnce(id: Id, format: string, outcome: PlaylistOutcome)
    ensures ClosesOnce(id, PlaylistEvents(id, format, outcome))
  {
  }

  // ---------------------------------------------------------------------
  // The worker procedures

  /** `do_download_video`; `format` only picks the stream, which is not modelled. */
  method DoDownloadVideo(url: string, format: string, id: Id, queue: Queue<Update>, outcome: VideoOutcome)
    modifies queue
    ensures queue.items == old(queue.items) + VideoEvents(id, outcome)
  {
    ghost var q0 := queue.items;
    ghost var sent: seq<Update>;
    queue.Put(Text(id, DownloadingVideo));
    if outcome.FetchFailed? {
      queue.Put(Text(id, CouldNotDownload));
      ConcatAssoc(q0, [Text(id, DownloadingVideo)], [Text(id, CouldNotDownload)]);
      sent := [Text(id, DownloadingVideo), Text(id, CouldNotDownload)];
      assert [Text(id, DownloadingVideo)] + [Text(id, CouldNotDownload)] == sent;
      assert sent == VideoPrefix(id, outcome);
    } else {
      queue.Put(Text(id, outcome.title));
      ConcatAssoc(q0, [Text(id, DownloadingVideo)], [Text(id, outcome.title)]);
      ghost var head := [Text(id, DownloadingVideo), Text(id, outcome.title)];
      assert [Text(id, DownloadingVideo)] + [Text(id, outcome.title)] == head;
      ghost var p := ProgressEvents(id, outcome.progress);
      ReportProgress(id, queue, outcome.progress);
      ConcatAssoc(q0, head, p);
      if outcome.downloadFailed {
        queue.Put(Text(id, CouldNotDownload));
        ConcatAssoc(q0, head + p, [Text(id, CouldNotDownload)]);
        sent := head + p + [Text(id, CouldNotDownload)];
      } else {
        sent := head + p;
        assert sent == head + p + [];
      }
      assert sent == VideoPrefix(id, outcome);
    }
    assert queue.items == q0 + sent;
    queue.Put(Close(id));
    VideoEventsUnfold(id, outcome);
    AppendLast(q0, sent, Close(id), VideoEvents(id, outcome));
  }

  /** Putting `x` after `sent` has put `ev` when `ev` ends with `x` after `sent`. */
  lemma AppendLast(q0: seq<Update>, sent: seq<Update>, x: Update, ev: seq<Update>)
    requires ev == sent + [x]
    ensures (q0 + sent) + [x] == q0 + ev
  {
    ConcatAssoc(q0, sent, [x]);
  }

  /** The events `do_download_video` puts before its `close`. */
  function VideoPrefix(id: Id, outcome: VideoOutcome): seq<Update> {
    match outcome
    case FetchFailed => [Text(id, DownloadingVideo), Text(id, CouldNotDownload)]
    case Fetched(title, progress, failed) =>
      [Text(id, DownloadingVideo), Text(id, title)] + ProgressEvents(id, progress) +
      (if failed then [Text(id, CouldNotDownload)] else [])
  }

  lemma VideoEventsUnfold(id: Id, outcome: VideoOutcome)
    ensures VideoEvents(id, outcome) == VideoPrefix(id, outcome) + [Close(id)]
  {
  }

  /** The calls of `on_progress` the download makes, each putting its fraction. */
  method ReportProgress(id: Id, queue: Queue<Update>, progress: seq<real>)
    modifies queue
    ensures queue.items == old(queue.items) + ProgressEvents(id, progress)
  {
    ghost var q0 := queue.items;
    var k := 0;
    while k < |progress|
      invariant 0 <= k <= |progress|
      invariant queue.items == q0 + ProgressEvents(id, progress[..k])
    {
      queue.Put(Progress(id, progress[k]));
      ProgressEventsAppend(id, progress[..k], progress[k]);
      assert progress[..k + 1] == progress[..k] + [progress[k]];
      k := k + 1;
    }
    assert progress[..k] == progress;
  }

  /** One more call of `on_progress` adds one more event at the end. */
  lemma {:induction false} ProgressEventsAppend(id: Id, p: seq<real>, x: real)
    ensures ProgressEvents(id, p + [x]) == ProgressEvents(id, p) + [Progress(id, x)]
    decreases |p|
  {
    if p != [] {
      assert (p + [x])[1..] == p[1..] + [x];
      ProgressEventsAppend(id, p[1..], x);
    }
  }

  /**
    `do_download_playlist` as written; `crashed` is the exception of line
    144: an unbound variable after a failed fetch, or a title read that
    raises.
  */
  method DoDownloadPlaylist(url: string, format: string, id: Id, queue: Queue<Update>, outcome: PlaylistOutcome)
    returns (crashed: bool)
    modifies queue
    ensures queue.items == old(queue.items) + PlaylistEventsAsWritten(id, format, outcome)
    ensures crashed <==> !outcome.PlaylistFetched?
  {
    queue.Put(Text(id, ProcessingPlaylist));
    match outcome {
      case PlaylistFailed =>
        queue.Put(Text(id, CouldNotProcess));
        return true;
      case TitleFailed(_) =>
        return true;
      case PlaylistFetched(title, urls) =>
        queue.Put(Text(id, PlaylistSummary(title, urls)));
        queue.Put(Progress(id, 1.0));
        queue.Put(Playlist(id, format, urls));
        queue.Put(Close(id));
        return false;
    }
  }
}
