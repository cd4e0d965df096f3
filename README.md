# youtube-downloader in Dafny

The repository has two front ends that download videos. Each pairs worker
jobs with an interface loop, and the two talk through a queue of event
dictionaries.

- **Qt application (`main.py`).**
  - A `DownloadThread` uses yt-dlp to fetch a video's title, then downloads
    the video. It reports `title`, `progress`, `finished`, `error` and
    `cancelled` events.
  - `VideoDownloaderApp` keeps one entry per download, with status
    `downloading`, `finished` or `removed`.
  - Its timer calls `update_downloads`. That call first removes the entries
    that are finished, then drains the queue into the entries.
  - A removed entry's widget is destroyed by `deleteLater()` once the call
    returns. An event for it in a later tick, or a second sweep of it, then
    raises. An `error` that follows `finished`, when it is put after the
    tick that drained `finished`, reaches the entry in the tick that removed
    it, marks it finished again, and so makes the next tick's sweep raise.
  - `cancel_download` raises the thread's stop flag. The next progress hook
    call then throws "Download cancelled", and `run` turns that exception
    into a `cancelled` event.
- **Kivy application (`youtube_downloader.py`).**
  - `do_download_video` and `do_download_playlist` run as processes. They
    send `text`, `progress`, `playlist` and `close` events.
  - `YouTubeDownloader` shows one widget per download, and a module-level
    registry maps each download id to its process.
  - `download` sends URLs containing `list=` to the playlist worker.
  - A `playlist` event starts one new download per URL. A `close` event, or
    a click on a widget's x button, removes both the widget and the registry
    entry.
  - An event whose id has no widget is dropped, and the drain stops at it.

The project has these modules:

- `Wrappers`: `Option`.
- `Queues`: the FIFO queue, a class with `Put` and `Get`.
- `Text`: digits, decimal rendering and substring search.
- `QtWorker`: `DownloadThread` and its helpers.
- `QtApp`: `VideoDownloaderApp`.
- `KivyWorkers`: the two worker scripts.
- `KivyApp`: `YouTubeDownloader`.

Each state-changing operation is a method. Those of the two applications,
the Qt thread and the queue are class methods; the Kivy worker scripts are
module-level methods that take the queue. Each method's `ensures` ties the
new state to a specification function of the old state. The properties are
then proved about those functions as lemmas.

The external libraries are replaced by inputs that describe what they do:

- **yt-dlp** is a `QtWorker.Library` value. It lists the progress-hook
  calls yt-dlp makes while fetching the title and while downloading. It also
  holds what the title fetch returns or raises, and whether the download
  raises at the end.
- **Calls to `stop()`** from the interface thread are `StopRequest` steps
  placed among those hook calls.
- **pytube** is a `VideoOutcome` or `PlaylistOutcome` value.

## Model

| member | source | states |
|---|---|---|
| QtWorker.TruncateTitle | main.py:84 | the result is at most 50 long; a title of at most 50 characters is kept; a longer one becomes exactly 50 characters, its first 47 followed by "..." |
| QtWorker.DigitRunEnd | main.py:54 | the digit run starting at an index: every character in it is a digit and the character after it is not |
| QtWorker.MatchDotIsRunEnd | main.py:54 | a match of `\d+\.\d+` has its dot exactly where the digit run starting at the match ends |
| QtWorker.Search | main.py:54 | the leftmost match of `\d+\.\d+` at or after an index, or none when there is no match there (what `re.search` finds) |
| QtWorker.ProgressStrToInt | main.py:53-54 | there is no result exactly when no `digits.digits` substring exists (the AttributeError). Otherwise the result is the value of the integral digits of the leftmost match, a natural number |
| QtWorker.ProgressOfColouredPercent | main.py:53-54 | a colour-coded percent string " 45.3%" gives 45: the digits of the escape code are skipped |
| QtWorker.HookCall | main.py:57-75 | definition (no contract): one call of the phase's hook, as the event it puts or the message it raises; its properties are the hook lemmas below |
| QtWorker.RunSteps | main.py:82-93 | definition (no contract): yt-dlp's hook calls and the `stop()` requests among them, run in order until one raises; see RunStepsAppend and StopThenHookCancels |
| QtWorker.RunTry | main.py:79-93 | definition (no contract): the `try` block, the title fetch then the download; see TryUpdatesShape |
| QtWorker.RunUpdates | main.py:77-105 | definition (no contract): a whole `run`, the `try` block then the `except` handler's event; see RunUpdatesShape |
| QtWorker.StoppedHookRaisesCancel | main.py:57-59 | with the stop flag set, either hook call raises "Download cancelled" |
| QtWorker.Classify | main.py:94-105 | the event is `cancelled` exactly when the message is "Download cancelled", otherwise `error` carrying the message, always for this job |
| QtWorker.InfoPhasePutsNothing | main.py:73-75 | `title_progress_hook` never puts an event |
| QtWorker.DownloadPhaseUpdates | main.py:57-70 | the download hook puts only `progress` and `finished` events, all for this job |
| QtWorker.RunStepsAppend | main.py:57-75 | hook calls split at any point: the second part runs only when the first did not raise, and it starts from the first part's stop flag |
| QtWorker.StoppedRunCancels | main.py:57-75 | with the stop flag set, the first hook call aborts with "Download cancelled" and nothing is put |
| QtWorker.StopThenHookCancels | main.py:57-59 | once `stop()` is called, the next hook call cancels, and nothing after the stop request is put |
| QtWorker.StoppedBeforeTitle | main.py:77-105 | a thread stopped before its title fetch calls a hook puts only `cancelled` |
| QtWorker.StoppedBeforeDownload | main.py:77-105 | a thread stopped before the download puts its truncated title and then `cancelled` |
| QtWorker.InfoStepsWithoutHook | main.py:73-75 | without hook calls, the title fetch puts nothing and raises nothing; stop requests only set the flag |
| QtWorker.StopWithoutHookIsIgnored | main.py:77-105 | a stop that no later hook call sees puts no `cancelled` event |
| QtWorker.RunUpdatesShape | main.py:77-105 | all events of a run are for its id. An `error` or `cancelled` event appears only last, and exactly when the run raised. It is `cancelled` exactly for "Download cancelled" and otherwise `error` with the message. A title can only be the first event, and it is at most 50 long |
| QtWorker.TryUpdatesShape | main.py:79-93 | inside the `try` block only events for this job are put, no `error` or `cancelled`, and a title only as the first event, at most 50 long |
| QtWorker.DownloadThread.constructor | main.py:46-51 | a new thread keeps its url, id and format and is not stopped |
| QtWorker.DownloadThread.Stop | main.py:107-108 | the stop flag is set |
| QtWorker.DownloadThread.ProgressHook | main.py:57-70 | raises "Download cancelled" when stopped; a `downloading` call puts the parsed progress, or raises when parsing fails; a `finished` call puts `finished`; any other status puts nothing; a call puts at most one event |
| QtWorker.DownloadThread.TitleProgressHook | main.py:73-75 | raises "Download cancelled" exactly when stopped |
| QtWorker.DownloadThread.CallHook | main.py:57-75 | yt-dlp calling the phase's hook: the hook's effect on the queue and its exception; a call puts at most one event |
| QtWorker.DownloadThread.RunHooks | main.py:82-93 | the queue gains exactly the events of the hook calls, in order. It ends with the stop flag and the exception of the step sequence |
| QtWorker.DownloadThread.TakeStep | main.py:57-75 | one stop request or hook call: what it puts, and that the remaining steps continue from the new stop flag unless it raised |
| QtWorker.DownloadThread.Run | main.py:77-105 | the queue gains exactly the events of one run: the title, the download hook events, then one `cancelled` or `error` event when something raised |
| QtWorker.DownloadThread.TryBody | main.py:79-93 | the queue gains exactly the title and the download hook events of the `try` block, and the exception that leaves it is reported |
| QtApp.Sweep | main.py:222-226 | definition (no contract): the sweep on one entry; see SweepAll |
| QtApp.Settle | main.py:224 | the widgets scheduled for deletion become destroyed, and nothing else changes |
| QtApp.ApplyUpdate | main.py:233-245 | definition (no contract): one branch of the dispatch; see DrainStatus |
| QtApp.Dispatchable | main.py:231-245 | definition (no contract): an event the dispatch handles without KeyError or RuntimeError; see DrainRaisesOnlyOnUnknown |
| QtApp.SweepRaises | main.py:221-223 | definition (no contract): some finished entry's widget is destroyed, so `removeWidget` raises; see RemoveFinished |
| QtApp.Drain | main.py:229-245 | definition (no contract): the drain loop; see DrainKeepsKeys, DrainRaisesOnlyOnUnknown and DrainStatus |
| QtApp.Tick | main.py:219-245 | definition (no contract): one `update_downloads` and the return to the event loop; see FinishedJobIsRemovedNextTick and ErrorAfterFinishedCrashesNextTick |
| QtApp.SweepAll | main.py:221-226 | every entry that was `finished` becomes `removed` with its widget scheduled for deletion; every other entry, and every other field, stays; no entry is added or deleted |
| QtApp.DrainKeepsKeys | main.py:229-245 | the drain never adds or deletes an entry and never changes where a widget is in its life |
| QtApp.ApplyKeepsDispatch | main.py:233-245 | dispatching an event never changes whether another event can be dispatched |
| QtApp.DrainRaisesIff | main.py:229-245 | an exception escapes exactly when some queued event is not dispatchable; otherwise the queue ends empty |
| QtApp.DrainRaisedRest | main.py:229-232 | when an exception escapes, the events after the first undispatchable one stay queued |
| QtApp.DrainRaisesOnlyOnUnknown | main.py:229-245 | an exception escapes exactly when some queued event's id has no entry (KeyError) or its widget is destroyed (RuntimeError). Otherwise the queue ends empty. When it escapes, the events after the first such event stay queued |
| QtApp.DrainStatus | main.py:233-245 | with every event dispatchable, an entry ends `finished` exactly when a `finished`, `error` or `cancelled` event for it was queued; `title` and `progress` events never change a status |
| QtApp.FinishedJobIsRemovedNextTick | main.py:219-245 | a job that finishes during a tick is shown as finished after that tick. It is removed by the next tick |
| QtApp.ErrorAfterFinishedCrashesNextTick | main.py:219-245 | an `error` drained in the tick whose sweep removed the entry marks it finished again while its widget is deleted at the end of the tick; the next tick's sweep then raises RuntimeError, whatever is queued, and drains nothing |
| QtApp.EventForDeletedWidgetRaises | main.py:224-245 | once an entry's widget is destroyed, any event for it makes the tick raise instead of updating the entry |
| QtApp.EmptyQueueTickOnlySweeps | main.py:219-230 | with an empty queue and no finished entry whose widget is destroyed, a tick is the sweep and the deletions it scheduled, and raises nothing |
| QtApp.VideoDownloaderApp.constructor | main.py:194 | no downloads yet |
| QtApp.VideoDownloaderApp.Download | main.py:201-216 | exactly one entry is added, under the fresh id, with a new unstopped thread for the url and status `downloading`; every other entry is unchanged |
| QtApp.VideoDownloaderApp.UpdateDownloads | main.py:219-245 | the entries and the queue become exactly the tick's: the sweep, the drain, then the deletions `deleteLater` scheduled; the KeyError or RuntimeError that escapes is reported; the key set is unchanged |
| QtApp.VideoDownloaderApp.RemoveFinished | main.py:221-226 | raises exactly when a finished entry's widget is already destroyed; otherwise the entries become exactly the sweep of the old entries |
| QtApp.VideoDownloaderApp.CancelDownload | main.py:247-248 | fails exactly for an id that was never submitted; otherwise that thread's stop flag is set |
| KivyWorkers.ProgressEvents | youtube_downloader.py:114-120 | one `progress` event per progress report |
| KivyWorkers.ProgressEventsIndex | youtube_downloader.py:114-120 | the k-th `progress` event carries the k-th reported fraction |
| KivyWorkers.VideoEvents | youtube_downloader.py:122-135 | definition (no contract): the events `do_download_video` puts; see VideoEventsShape |
| KivyWorkers.PlaylistSummary | youtube_downloader.py:144 | definition (no contract): `f'{title} ({len(urls)} items)'` |
| KivyWorkers.PlaylistEventsAsWritten | youtube_downloader.py:137-148 | definition (no contract): the events `do_download_playlist` puts as written; see PlaylistSuccessShape, PlaylistFailureNeverCloses and PlaylistTitleFailureNeverCloses |
| KivyWorkers.PlaylistEvents | youtube_downloader.py:137-148 | definition (no contract): the corrected playlist worker, which reads the title inside the `try` and closes after any failure; see PlaylistEventsCloseOnce |
| KivyWorkers.VideoEventsShape | youtube_downloader.py:122-135 | a video worker ends with exactly one `close` whether pytube succeeds or raises. It starts with "Downloading video", then the title when the title was read. A failure shows "Couldn't download video" just before `close`. A successful run reports every progress fraction in order |
| KivyWorkers.PlaylistSuccessShape | youtube_downloader.py:137-148 | a readable playlist gives exactly five events: "Processing playlist url", `f'{title} ({len(urls)} items)'`, a full bar, the `playlist` expansion with the format and every URL, and one final `close` |
| KivyWorkers.PlaylistFailureNeverCloses | youtube_downloader.py:142-148 | as written, a playlist worker whose fetch fails sends exactly "Processing playlist url" and "Couldn't process playlist url", and never `close` |
| KivyWorkers.PlaylistTitleFailureNeverCloses | youtube_downloader.py:139-144 | as written, a playlist worker whose `video_urls` succeeds but whose `.title` read at line 144 raises sends only "Processing playlist url": no failure text and no `close` |
| KivyWorkers.PlaylistEventsCloseOnce | youtube_downloader.py:137-148 | the corrected playlist worker ends with exactly one `close` on every outcome |
| KivyWorkers.DoDownloadVideo | youtube_downloader.py:122-135 | the queue gains exactly the video worker's events |
| KivyWorkers.ReportProgress | youtube_downloader.py:114-120 | the queue gains one `progress` event per `on_progress` call, in order |
| KivyWorkers.DoDownloadPlaylist | youtube_downloader.py:137-148 | the queue gains exactly the playlist worker's events as written. It crashes exactly when the playlist could not be read: the fetch failed, or the title read outside the `try` raised |
| KivyApp.Route | youtube_downloader.py:199 | the playlist worker exactly when the URL contains `list=` |
| KivyApp.VideoInPlaylistRoutesToPlaylist | youtube_downloader.py:199 | a video URL carrying a `list=` parameter goes to the playlist worker |
| KivyApp.IndexOf | youtube_downloader.py:207-212 | the first widget with the id, or none exactly when no widget has it |
| KivyApp.AddDownload | youtube_downloader.py:193-202 | definition (no contract): `download`'s effect on the widgets and the registry; see AddDownloadFrame |
| KivyApp.AddDownloads | youtube_downloader.py:188-191 | definition (no contract): `download` for each URL of a `playlist` event; see AddDownloadsFrame |
| KivyApp.DropDownload | youtube_downloader.py:214-220 | definition (no contract): `remove_download`; see DropDownloadFrame |
| KivyApp.ApplyUpdate | youtube_downloader.py:182-191 | definition (no contract): one branch of the dispatch; see TextProgressFrame and ApplyUpdateValid |
| KivyApp.Drain | youtube_downloader.py:173-191 | definition (no contract): the drain loop; see DrainStopsAtUnknown and DrainOwnEvents |
| KivyApp.NewWidget | youtube_downloader.py:193-196 | definition (no contract): a fresh `DownloadWidget` under the id, with the empty label and the bar at 0; see AddDownloadFrame |
| KivyApp.AddDownloadFrame | youtube_downloader.py:193-202 | one new widget under a fresh id, in front of the others, and one new process under that id running the routed worker; everything else unchanged; the invariant is kept |
| KivyApp.AddDownloadsFrame | youtube_downloader.py:188-202 | a `playlist` expansion adds one download per URL, in order: `len(urls)` new widgets in front of the old ones, the last URL's first, each a fresh `DownloadWidget` under its new id; the k-th new process for the k-th URL; old entries unchanged |
| KivyApp.AddDownloadsShape | youtube_downloader.py:188-198 | a `playlist` expansion puts `len(urls)` fresh widgets in front of the old ones, the last URL's first, and advances the fresh id by `len(urls)` |
| KivyApp.AddDownloadsRegistry | youtube_downloader.py:188-201 | the registry gains exactly the new ids, the k-th for the k-th URL with its routed worker; old entries are unchanged |
| KivyApp.AddDownloadsValid | youtube_downloader.py:188-191 | a `playlist` expansion keeps the invariant |
| KivyApp.DropDownloadFrame | youtube_downloader.py:214-220 | after removal the id is in neither the widgets nor the registry; every other widget and entry remains, in order |
| KivyApp.TextProgressFrame | youtube_downloader.py:182-185 | `text` and `progress` events change only the label or the bar of the matching widget; nothing is added or removed |
| KivyApp.ApplyUpdateValid | youtube_downloader.py:182-191 | every dispatched event keeps the invariant: unique widget ids, a registry entry exactly for each widget, ids below the next fresh id |
| KivyApp.DrainStopsAtUnknown | youtube_downloader.py:174-181 | what stays queued is a suffix of the queue; when something stays, the events before the last one taken were drained to the final state, and that last event had no widget and was dropped without effect; the invariant is kept |
| KivyApp.DrainValid | youtube_downloader.py:174-191 | the drain keeps the invariant |
| KivyApp.DrainRest | youtube_downloader.py:174-181 | what stays queued is a suffix; when something stays, draining the events before the last one taken gives the final state with nothing left, and that last event had no widget in it, so it changed nothing |
| KivyApp.DrainOwnEvents | youtube_downloader.py:174-191 | a worker's own events are all consumed, and it is removed from both structures exactly when its last event is `close` |
| KivyApp.VideoWorkerRemovesItself | youtube_downloader.py:122-135 | a video worker's events remove its widget and registry entry |
| KivyApp.FailedPlaylistStaysRegistered | youtube_downloader.py:142-148 | as written, all of a playlist worker's events drained, its widget and its registry entry stay behind exactly when the playlist could not be read |
| KivyApp.PlaylistWorkerRemovesItself | youtube_downloader.py:137-148 | the corrected playlist worker always removes itself |
| KivyApp.YouTubeDownloader.constructor | youtube_downloader.py:168-170 | no widgets and no processes; the invariant holds |
| KivyApp.YouTubeDownloader.Download | youtube_downloader.py:193-202 | the state becomes exactly `download`'s effect, and the invariant is kept |
| KivyApp.YouTubeDownloader.FindDownloadWidget | youtube_downloader.py:207-212 | the index of the first widget with the id, or none exactly when no widget has it |
| KivyApp.YouTubeDownloader.RemoveDownload | youtube_downloader.py:214-220 | the widget with the id, if shown, and the registry entry are removed, and the invariant is kept |
| KivyApp.YouTubeDownloader.HandleXClick | youtube_downloader.py:204-205 | the clicked download is in neither structure afterwards, and the invariant is kept |
| KivyApp.YouTubeDownloader.UpdateDownloads | youtube_downloader.py:173-191 | the state and the queue become exactly the drain's result; the invariant is kept |
| Queues.Queue.constructor | main.py:43 | the queue starts empty (also `manager.Queue()` at youtube_downloader.py:235) |
| Queues.Queue.Put | main.py:61 | the item is added at the back |
| Queues.Queue.Empty | main.py:229 | definition (no contract): `empty()`, true exactly when no item is waiting |
| Queues.Queue.Get | main.py:230 | the front item is taken off |
| Text.Contains | youtube_downloader.py:199 | definition (no contract): Python's `t in s` on strings, `t` occurring at some index of `s`; see KivyApp.Route |
| Text.NatToString | youtube_downloader.py:144 | a non-empty run of decimal digits with no leading zero ("0" for zero), as `str()` renders a count |
| Text.NatToStringRoundTrip | youtube_downloader.py:144 | reading the decimal rendering of a number gives the number back |

## Left out

- Widget construction, layout, the KV string, CSS, `QTimer` and `Clock`
  scheduling (main.py:110-199, youtube_downloader.py:14-107, 150-168,
  222-236). A Qt entry is represented by its label text and progress value.
  A Kivy widget is represented by its id, label text and progress value.
- yt-dlp and pytube. What they do is an input value, as described above.
  Which stream or option dictionary is chosen by format (main.py:80-81,
  90-91, youtube_downloader.py:128-131) is not modelled. The `ssl` override
  and `downloads_folder` are not modelled either.
- Threads and processes. Starting them, `join`, `terminate`, `sleep`,
  `on_stop`, and the interleaving of producers are not modelled. The queue
  is a sequence consumed by one loop. A run or worker script appends a
  whole run's events, so events from different jobs are not interleaved.
  Calls to `stop()` are placed among hook calls only.
- KivyWorkers.ProgressEvents: the fraction `bytes_downloaded / total_size`
  is an input `real`, not computed from byte counts; floating point is not
  modelled.
- QtWorker.ProgressStrToInt: `int(float(m))` is the value of the integral
  digits. For matches with very many digits, floating-point rounding would
  differ. Non-ASCII digits matched by `\d` are not digits here.
- QtApp.VideoDownloaderApp.Download: `uuid4()` is a caller-supplied id,
  assumed fresh.
- KivyApp.YouTubeDownloader.Download: `str(random())` is a counter, so the
  id is always fresh; a repeated random id is not modelled.
- The input field is not modelled. `self.input_field.clear()` and reading
  `text()` (main.py:207, 217) are not modelled, and neither is the
  `cancel_event` attribute set on a thread and never read. The url is a
  parameter.
- The progress bar's 0..100 range and value clamping are not modelled.
  Before any progress event the value is `None`.
- yt-dlp may wrap an exception raised by a hook. The model passes the
  hook's message through unchanged.
- constants.py is not part of this model; it only holds static
  configuration.
- The Qt `download` does not check that the url is non-empty, so an empty
  url starts a thread like any other; the model does the same.
- KivyApp.YouTubeDownloader.RemoveDownload: requires a registered id. The
  source's `dict.pop` without a default would raise KeyError otherwise, and
  its only callers pass the id of a shown widget, which is registered.
- KivyApp.YouTubeDownloader.UpdateDownloads: requires the state invariant,
  which the constructor establishes and every method keeps.
- QtApp.VideoDownloaderApp.RemoveFinished: when the sweep meets a finished
  entry whose widget is destroyed, the source raises after sweeping the
  entries before it in dict insertion order; a map keeps no order, so the
  model leaves every entry as it was. PyQt6 aborts the application on an
  exception that escapes a slot, so nothing after a raising tick is
  modelled.
- Qt widget deletion: `deleteLater()` is modelled as taking effect when
  `update_downloads` returns to the event loop. Any later call on the
  widget, its label or its progress bar raises RuntimeError, as PyQt does
  for a destroyed C++ object; the Qt internals behind this are not
  modelled.

## Findings

| source | as written | input that shows it | evidently intended | confidence | as-written member | corrected member |
|---|---|---|---|---|---|---|
| youtube_downloader.py:142-148 | after a failed playlist fetch the handler falls through to line 144, where `playlist_object` or `urls` is unbound, or `.title` raises again; the process dies before sending `close`, so its widget and registry entry stay until the user clicks the widget's x button; no event ever removes them | a playlist URL whose fetch raises (`PlaylistFailed`) | report the failure, then send `close` as `do_download_video` does | not executed | KivyWorkers.PlaylistFailureNeverCloses | KivyWorkers.PlaylistEventsCloseOnce |
