# m3u8 downloader: job engine and URL list, modelled in Dafny

This project models two parts of the m3u8 downloader extension and its local
download server.

- **The download job engine** (`server/server.js`):
  - the stderr handler that turns ffmpeg's `Duration:` and `time=` output into throttled progress updates;
  - the `activeDownloads` map with its pause / resume / cancel control endpoint;
  - the table of open progress streams (`app.locals`);
  - the `close` and `error` handlers of each ffmpeg process;
  - the start endpoint and the single-use retrieval endpoint.
- **The background script's URL list** (`background.js`): the global `m3u8Data` array, deduplicated by url, with its stored copy and the messages sent to the popup.

Files:

- `wrappers.dfy`: `Option`.
- `progress_parser.dfy` (module `ProgressParser`): the pure part of the stderr handler.
  - The regular-expression search is leftmost-match semantics over `string`.
  - A timestamp's value is kept in whole centiseconds.
  - The percentage is an exact `real`, and `Math.round` is modelled exactly.
  - `ReadChunk` turns one chunk into the facts the handler uses: the first `Duration:` value and the first `time=` value with its text.
  - `Step` takes one chunk's facts through the duration rule and the throttle. `Run` does the same for a sequence of chunks, so its lemmas hold for every sequence of chunks.
- `download_server.dfy` (module `DownloadServer`):
  - `Process`: an ffmpeg process reduced to its arguments and a Running / Stopped / TermPending / Killed flag. TermPending is a stopped process with a SIGTERM waiting for SIGCONT, as POSIX delivers it.
  - `Server`: the `activeDownloads` map, the stream table, the set of files on disk, the platform flag and `__dirname`.
  - `Transcode`: what one start request closes over (id, output path, process, `duration`, `lastProgress`). Its methods are the process's `data`, `close` and `error` handlers.
- `background.dfy` (module `Background`): class `BackgroundPage` and the `some` scan.

Behaviour of the code that the model keeps as written:

- The timestamp pattern `(\d{2}.\d{2})` does not escape its `.`. Without the `u` flag, `.` matches one UTF-16 code unit that is not a line terminator. So any such code unit is accepted between the seconds and the hundredths, and `parseFloat` then reads the five characters. A character outside the Basic Multilingual Plane is two code units, so it never matches there.
  - With `e` or `E` there, the value is an exponent (`ExponentSeparator`).
  - With a digit there, the value is a five-digit number of seconds.
  - With any other character, only the two seconds digits count.
- The duration is searched for while it is 0. A parsed duration of `00:00:00.00` therefore does not stop the search.
- The throttle compares unrounded values. What is written is `Math.round` of the value.
  - The values that pass are at least 1 apart (`RunThrottled`), and the written percentages of consecutive updates differ (`SentPercentsDiffer`).
  - They need not increase: a `time=` that goes backwards by at least 1 % is sent.
- The model follows the code where it may be surprising:
  - Subscribing to progress never answers "not found". It registers a stream for any id, and silently replaces an earlier stream for the same id without ending it.
  - There are no completed, failed or cancelled entries. `close`, `error` and `cancel` remove the entry from `activeDownloads`.
  - A non-zero exit does not delete the output file. `error` and `cancel` delete it at the path ffmpeg wrote. Retrieval deletes the file it sent, at its own path.
  - Retrieval looks in `__dirname`, not in `D:/pc` where ffmpeg writes. `RetrievalFindsDownloadIff` shows that it finds a download's file exactly when the two directories coincide.
  - Off win32, cancelling a paused download sends SIGTERM to a stopped process. The signal stays pending, and nothing sends SIGCONT afterwards, so the process is left stopped (`CancelAfterPauseLeavesTermPending`).
  - On win32, pause terminates the process rather than suspending it. Resume is then refused with "Resume not supported on Windows" and the status stays `paused`.

## Model

| member | source | states |
|---|---|---|
| ProgressParser.FirstMatchFrom | server/server.js:72 | a result is a position, at or after the start, where the whole pattern matches |
| ProgressParser.FirstMatchFromIsLeftmost | server/server.js:72 | no position between the start and the result matches (no position at all, when there is no result): the leftmost-match semantics of `String.match` |
| ProgressParser.FindStamp | server/server.js:62 | a result is text of the form `\d\d:\d\d:\d\d?\d\d`, where `?` is one UTF-16 code unit other than a line terminator |
| ProgressParser.FindStampIsLeftmost | server/server.js:62 | no result exactly when the pattern matches nowhere in the chunk; otherwise the captured text of the first match |
| ProgressParser.ParseSeconds | server/server.js:66 | `parseFloat` of the seconds group is never negative. With a `.` separator it lies in [s, s+1), where s is the two whole-second digits. With any other separator it is a whole number |
| ProgressParser.ReadStamp | server/server.js:62-77 | nothing is read exactly when the pattern matches at no position. Otherwise the text is the capture of the leftmost match, a well-formed timestamp, with its value in centiseconds |
| ProgressParser.SecondsCentis | server/server.js:66 | the seconds group in centiseconds equals 100 times `parseFloat` of that group, including the exponent and five-digit readings the unescaped `.` admits |
| ProgressParser.StampCentis | server/server.js:64-67 | the timestamp divided by 100 is `hours*3600 + minutes*60 + parseFloat(seconds)`; with a `.` separator it is the exact centisecond count |
| ProgressParser.ReadChunk | server/server.js:61-77 | for `Duration: ` and for `time=` separately: nothing exactly when the pattern matches nowhere in the chunk, otherwise the leftmost match's capture and value |
| ProgressParser.ExponentSeparator | server/server.js:72-77 | `00:00:01e02` matches the pattern and is read as 100 seconds |
| ProgressParser.Percent | server/server.js:80 | 0 while the duration is 0, otherwise the value p with p·duration = 100·currentTime; never negative, and at most 100 while the time does not exceed the duration |
| ProgressParser.Round | server/server.js:88 | `Math.round`: the integer within half of x, with halves rounded up |
| ProgressParser.RoundSeparates | server/server.js:83-88 | two progress values at least 1 apart round to different percentages |
| ProgressParser.NextDuration | server/server.js:61-69 | a known (non-zero) duration is never overwritten. While it is 0, a `Duration:` match replaces it with the parsed value. A chunk without a match leaves it unchanged |
| ProgressParser.Step | server/server.js:57-94 | an update is sent exactly when the chunk has a `time=` match whose percent is at least 1 away from `lastProgress`. `lastProgress` then becomes that unrounded percent, and is unchanged when nothing is sent. The update carries the first match's text and its percent against the new duration |
| ProgressParser.Run | server/server.js:57-94 | the stderr handler over successive chunks: at most one update per chunk, and every sent progress value is non-negative |
| ProgressParser.RunEndsAtLastSent | server/server.js:83-84 | over any sequence of chunks, the first sent value is at least 1 from the starting `lastProgress`, and `lastProgress` ends equal to the last value sent (or unchanged, when nothing was sent) |
| ProgressParser.RunThrottled | server/server.js:83-84 | over any sequence of chunks, consecutive sent values are at least 1 apart |
| ProgressParser.SentPercentsDiffer | server/server.js:83-90 | over any sequence of chunks, the written `Math.round` percentages of consecutive updates differ |
| ProgressParser.RunKeepsDuration | server/server.js:61-68 | once the duration is non-zero, no later chunk changes it |
| ProgressParser.NoDurationNoUpdates | server/server.js:80-84 | if no chunk yields a non-zero duration, the progress stays 0 and a fresh handler sends nothing at all |
| DownloadServer.CloseEvent | server/server.js:99-103 | the close event is terminal; it is `complete` with the download id exactly when the exit code is 0, and otherwise an error carrying that code (null included) |
| DownloadServer.AfterSignal | server/server.js:155-157 | a killed process stays killed. SIGTERM kills a process unless it is stopped; a stopped one keeps the SIGTERM pending. Only SIGCONT makes a process run, only SIGSTOP stops a running one, and SIGCONT never leaves it stopped |
| DownloadServer.CancelAfterPauseLeavesTermPending | server/server.js:155-157 | SIGSTOP then SIGTERM leaves a process stopped with the termination pending, while SIGTERM alone kills a running one |
| DownloadServer.DownloadPath | server/server.js:36 | the output path lies in `D:/pc` and ends with `output_<id>.mp4` |
| DownloadServer.RetrievalPath | server/server.js:127 | the retrieval path lies in `__dirname` and ends with the same file name |
| DownloadServer.FfmpegArgs | server/server.js:37-46 | nine arguments: `-i`, the playlist url, `-c copy`, and the output path last |
| DownloadServer.RetrievalFindsDownloadIff | server/server.js:127 | the retrieval path of an id equals the path ffmpeg wrote it to exactly when `__dirname` is `D:/pc` |
| DownloadServer.Process.Kill | server/server.js:155-157 | a signal moves the process flag as `AfterSignal` says; a killed process stays killed |
| DownloadServer.Server.constructor | server/server.js:16 | the server starts with no downloads, no streams and no ended streams, and the stream invariant holds |
| DownloadServer.Server.Subscribe | server/server.js:18-25 | the id gets a new empty stream, whether or not the download exists; other streams are untouched |
| DownloadServer.Server.Start | server/server.js:27-52 | a missing or empty url gives 400 and creates nothing. Otherwise the reply is the id, ffmpeg is spawned running with the copy/fragmented-mp4 arguments and output `D:/pc/output_<id>.mp4`, the entry is set to `downloading`, and the handler state starts at duration 0, lastProgress 0 |
| DownloadServer.Server.Retrieve | server/server.js:125-139 | an existing file is sent as `video_<id>.mp4` and removed, otherwise 404; the file is gone afterwards, so a second retrieval is answered 404 |
| DownloadServer.Server.Control | server/server.js:141-197 | unknown id: 404. Pause works only from `downloading`: it stops the process (kills it on win32) and sets `paused`. Resume works only from `paused` off win32: it continues the process and sets `downloading`. On win32, resume gives 400 "Resume not supported on Windows". Cancel sends SIGTERM (so a paused process is left with it pending), deletes the output file and removes the entry. Any other action gives 400. Every rejection leaves the map, the files and the process unchanged |
| DownloadServer.Transcode.constructor | server/server.js:54-55 | the handler's `duration` and `lastProgress` start at 0 |
| DownloadServer.Transcode.OnStderr | server/server.js:57-94 | the handler variables advance as `Step` says. A sent update is appended as `{Math.round(progress), time}` to the id's open stream, or dropped if there is none. Open streams never contain a terminal event |
| DownloadServer.Transcode.OnClose | server/server.js:96-108 | an open stream gets `CloseEvent`, is ended (recorded with exactly one terminal event, at its end) and removed; the entry is removed whether or not a stream was open |
| DownloadServer.Transcode.OnError | server/server.js:110-122 | an open stream gets an error with the message, is ended and removed; the output file is deleted and the entry removed |
| DownloadServer.Transcode.OnOutputWritten | server/server.js:40-46 | ffmpeg writing its output: the output path is added to the files on disk and nothing else changes |
| DownloadServer.Transcode.EndStream | server/server.js:99-121 | the open stream, if any, gets the terminal event, is recorded as ended with exactly one terminal event at its end and is removed; other streams are untouched |
| Background.IncludesFrom | background.js:33 | true exactly when the substring occurs at or after the given index |
| Background.Includes | background.js:33 | `includes`: true exactly when the substring occurs somewhere |
| Background.SomeHasUrl | background.js:19 | true exactly when some record of the list has the url |
| Background.AppendKeepsUnique | background.js:19-20 | appending a record whose url is not in a list with unique urls keeps the urls unique |
| Background.SourceUrl | background.js:7-8 | the tab's url when the lookup found one, otherwise "unknown" |
| Background.BackgroundPage.constructor | background.js:1 | the list starts empty, with whatever storage holds; the invariant holds exactly when the stored list has unique urls |
| Background.BackgroundPage.AddM3U8URL | background.js:3-29 | a record is added exactly when no record has its url. It goes at the end, the old records keep their order, and the list is saved and a `newURL` message is sent. Otherwise nothing changes. No two records ever share a url |
| Background.BackgroundPage.OnBeforeRequest | background.js:31-39 | a url without `.m3u8` changes nothing; a new `.m3u8` url is appended, saved and announced; a known url changes nothing |
| Background.BackgroundPage.OnMessage | background.js:41-53 | `getURLs` answers the current list unchanged; `clearAll` empties the list and the stored copy and answers `{success: true}`; other actions get no answer and change nothing |
| Background.BackgroundPage.LoadFromStorage | background.js:55-61 | stored data, when present (even an empty list), replaces the list; otherwise the list is untouched; the invariant is kept |

## Left out

- The `catch` branch of the control endpoint (500 "Internal server error") is not modelled. The model's `kill` and file deletion never fail.
- `removeAllListeners` after a control request is not modelled. It is called on the process, not on its stderr, so in the source it removes only the `close` and `error` handlers. In the model those two stay callable after a control request; `OnStderr` stays callable in both.
- Express itself is not modelled: middleware, the progress stream's headers, `app.listen` and the byte transfer of `res.download`. Responses are their status and JSON payload. Retrieval deletes the file at once, where the source deletes it in the transfer's callback.
- Real processes and signals are not modelled. A process is a flag, and exits and errors happen only when the corresponding handler is called. A process killed by pause or cancel does not by itself call `OnClose`.
- Download ids come from `Date.now()` in the source. In the model they are parameters, so two downloads may share an id, as in the source.
- Floating point is not modelled: times, percentages and `Math.round` are exact.
- Error message text is not rendered. `ExitErrorEvent(code)` stands for the text "FFmpeg process exited with code <code>".
- `path.join` is modelled as `dir + "/" + name`, without normalisation and without win32 backslashes.
- RetrievalPath (and so `Server.Retrieve`): an id containing `/` or `..` is not normalised. In the source, Express URL-decodes `:id`, so a request such as `/download/%2F..%2F..%2Fx` makes `path.join` resolve outside `__dirname`. There it reads and then deletes an existing `.mp4` file. The model keeps the joined string, so it answers 404 and deletes nothing; it does not capture reads or deletions outside `__dirname`.
- A non-string `m3u8Url` in the request body is not modelled. The url is an optional string.
- The unused `TIMEOUT` constant and the console logging are not modelled.
- Concurrency between requests, and the asynchronous callbacks of `chrome.storage` and `chrome.tabs.get`, are not modelled: they are taken as completing in call order. The tab lookup's result is a parameter.
- popup.js and content.js (user interface and DOM queries) are not part of this model.
