/**
  The download job engine of server/server.js: the `activeDownloads` map, the
  table of open progress streams (`app.locals`), the output files on disk, the
  per-download stderr/close/error handlers, and the HTTP endpoints that start,
  control and retrieve downloads. Only each response's status and payload are
  modelled; the ffmpeg process is an object with a state flag.
*/
module DownloadServer {
  import opened Wrappers
  import opened ProgressParser

  /** The value of `download.status`. */
  datatype Status = Downloading | Paused

  /** The signals `kill` is called with; `kill()` sends SIGTERM. */
  datatype Signal = SIGTERM | SIGSTOP | SIGCONT

  /** TermPending is a stopped process with a SIGTERM waiting: a stopped
      process acts on no signal but SIGKILL and SIGCONT, so SIGTERM takes
      effect only once it is continued. */
  datatype ProcState = Running | Stopped | TermPending | Killed

  /** POSIX signal delivery, reduced to the flag. A terminated process stays
      terminated. A running process is killed by SIGTERM and stopped by
      SIGSTOP. A stopped process keeps a SIGTERM pending and acts on it when
      SIGCONT arrives. */
  function AfterSignal(s: ProcState, sig: Signal): (r: ProcState)
    ensures s == Killed ==> r == Killed
    ensures sig == SIGTERM ==> (r == Killed <==> s != Stopped && s != TermPending)
    ensures sig == SIGTERM && (s == Stopped || s == TermPending) ==> r == TermPending
    ensures r == Running ==> sig == SIGCONT
    ensures r == Stopped ==> sig == SIGSTOP || s == Stopped
    ensures sig == SIGCONT ==> r != Stopped && r != TermPending
  {
    match s
    case Killed => Killed
    case Running =>
      (match sig
       case SIGTERM => Killed
       case SIGSTOP => Stopped
       case SIGCONT => Running)
    case Stopped =>
      (match sig
       case SIGTERM => TermPending
       case SIGSTOP => Stopped
       case SIGCONT => Running)
    case TermPending =>
      (match sig
       case SIGCONT => Killed
       case _ => TermPending)
  }

  /** Off win32, a paused download that is then cancelled is left stopped
      with its SIGTERM pending, since nothing sends SIGCONT afterwards. */
  lemma CancelAfterPauseLeavesTermPending()
    ensures AfterSignal(AfterSignal(Running, SIGSTOP), SIGTERM) == TermPending
    ensures AfterSignal(Running, SIGTERM) == Killed
  {
  }

  /** A spawned ffmpeg process, reduced to its arguments and a state flag. */
  class Process {
    const args: seq<string>
    var state: ProcState

    constructor (args: seq<string>)
      ensures this.args == args && state == Running
    {
      this.args := args;
      state := Running;
    }

    method Kill(sig: Signal)
      modifies this
      ensures state == AfterSignal(old(state), sig)
    {
      state := AfterSignal(state, sig);
    }
  }

  /** One entry of `activeDownloads`. */
  datatype Download = Download(process: Process?, status: Status, outputPath: string)

  /** What is written to a progress stream. ExitError is the
      `FFmpeg process exited with code <code>` message, where the code is
      `null` (None) when the process was ended by a signal. */
  datatype Event =
    | ProgressEvent(percent: int, time: string)
    | CompleteEvent(downloadId: string)
    | ExitErrorEvent(code: Option<int>)
    | SpawnErrorEvent(message: string)
  {
    predicate IsTerminal() {
      !ProgressEvent?
    }
  }

  /** A progress stream that has been ended, with everything written to it. */
  datatype Stream = Stream(downloadId: string, log: seq<Event>)

  /** The status code and JSON payload of a response. */
  datatype Response =
    | Started(downloadId: string)           // 200 { downloadId }
    | Accepted(status: string)              // 200 { status }
    | FileSent(path: string, fileName: string)  // res.download(path, fileName)
    | Rejected(code: nat, error: string)    // code { error }

  predicate NoTerminal(log: seq<Event>) {
    forall i :: 0 <= i < |log| ==> !log[i].IsTerminal()
  }

  /** Exactly one terminal event, and it is the last one. */
  predicate EndsWithOneTerminal(log: seq<Event>) {
    |log| > 0 && log[|log| - 1].IsTerminal() && NoTerminal(log[..|log| - 1])
  }

  /** The terminal event the `close` handler writes (server/server.js:99-103). */
  function CloseEvent(downloadId: string, code: Option<int>): (e: Event)
    ensures e.IsTerminal()
    ensures e.CompleteEvent? <==> code == Some(0)
    ensures e.CompleteEvent? ==> e.downloadId == downloadId
    ensures !e.CompleteEvent? ==> e == ExitErrorEvent(code)
  {
    if code == Some(0) then CompleteEvent(downloadId) else ExitErrorEvent(code)
  }

  /** The directory downloads are written to (server/server.js:35). */
  const DownloadDir: string := "D:/pc"

  function OutputName(downloadId: string): string {
    "output_" + downloadId + ".mp4"
  }

  /** `path.join(dir, name)`, without normalisation. */
  function Join(dir: string, name: string): string {
    dir + "/" + name
  }

  /** Where ffmpeg writes a download (server/server.js:36): in `D:/pc`, named
      after the id. */
  function DownloadPath(downloadId: string): (p: string)
    ensures |p| > |DownloadDir| && p[..|DownloadDir|] == DownloadDir
    ensures |p| > |OutputName(downloadId)|
    ensures p[|p| - |OutputName(downloadId)|..] == OutputName(downloadId)
  {
    Join(DownloadDir, OutputName(downloadId))
  }

  /** Where the retrieval endpoint looks for it (server/server.js:127): in the
      server's own directory, under the same name. */
  function RetrievalPath(dirname: string, downloadId: string): (p: string)
    ensures |p| > |dirname| && p[..|dirname|] == dirname
    ensures |p| > |OutputName(downloadId)|
    ensures p[|p| - |OutputName(downloadId)|..] == OutputName(downloadId)
  {
    Join(dirname, OutputName(downloadId))
  }

  /** The retrieval endpoint looks at the file ffmpeg wrote exactly when the
      server's own directory is the download directory. */
  lemma RetrievalFindsDownloadIff(dirname: string, downloadId: string)
    ensures RetrievalPath(dirname, downloadId) == DownloadPath(downloadId) <==> dirname == DownloadDir
  {
    var suffix := "/" + OutputName(downloadId);
    assert RetrievalPath(dirname, downloadId) == dirname + suffix;
    assert DownloadPath(downloadId) == DownloadDir + suffix;
    if dirname + suffix == DownloadDir + suffix {
      assert |dirname| == |DownloadDir|;
      assert dirname == (dirname + suffix)[..|dirname|];
      assert DownloadDir == (DownloadDir + suffix)[..|DownloadDir|];
    }
  }

  /** The arguments ffmpeg is spawned with (server/server.js:40-46). */
  function FfmpegArgs(m3u8Url: string, outputPath: string): (args: seq<string>)
    ensures |args| == 9
    ensures args[0] == "-i" && args[1] == m3u8Url && args[|args| - 1] == outputPath
    ensures args[2] == "-c" && args[3] == "copy"
  {
    ["-i", m3u8Url, "-c", "copy", "-bsf:a", "aac_adtstoasc",
     "-movflags", "frag_keyframe+empty_moov", outputPath]
  }

  class Server {
    /** `process.platform === 'win32'` */
    const win32: bool
    /** `__dirname` */
    const dirname: string
    var activeDownloads: map<string, Download>
    /** `app.locals`: the open progress streams and what has been written to each. */
    var subscribers: map<string, seq<Event>>
    /** The paths that exist on disk. */
    var files: set<string>
    /** The progress streams that have been ended, in order. */
    ghost var ended: seq<Stream>

    /** Open streams have not seen a terminal event; every ended stream got
        exactly one, as its last event. */
    ghost predicate Valid()
      reads this
    {
      && (forall id :: id in subscribers ==> NoTerminal(subscribers[id]))
      && (forall k :: 0 <= k < |ended| ==> EndsWithOneTerminal(ended[k].log))
    }

    constructor (win32: bool, dirname: string, files: set<string>)
      ensures Valid()
      ensures this.win32 == win32 && this.dirname == dirname && this.files == files
      ensures activeDownloads == map[] && subscribers == map[] && ended == []
    {
      this.win32 := win32;
      this.dirname := dirname;
      this.files := files;
      activeDownloads := map[];
      subscribers := map[];
      ended := [];
    }

    /** The process object of the entry for `id`, if any. */
    function ProcessOf(id: string): set<object>
      reads this
    {
      if id in activeDownloads && activeDownloads[id].process != null
      then {activeDownloads[id].process} else {}
    }

    /** GET /progress/:id (server/server.js:18-25): registers a new, empty
        stream for `id`, whether or not a download with that id exists, and
        replaces (without ending) any stream already registered. */
    method Subscribe(id: string)
      requires Valid()
      modifies this`subscribers
      ensures Valid()
      ensures subscribers == old(subscribers)[id := []]
    {
      subscribers := subscribers[id := []];
    }

    /** POST /download (server/server.js:27-52). A missing or empty `m3u8Url`
        is rejected with 400 and creates nothing; otherwise the id is answered
        at once, ffmpeg is spawned and the entry is set to `downloading`. The
        id, which the source takes from the clock, is a parameter. */
    method Start(m3u8Url: Option<string>, id: string) returns (resp: Response, job: Transcode?)
      requires Valid()
      modifies this`activeDownloads
      ensures Valid()
      ensures m3u8Url == None || m3u8Url == Some("") ==>
        && resp == Rejected(400, "M3U8 URL is required")
        && job == null
        && activeDownloads == old(activeDownloads)
      ensures m3u8Url != None && m3u8Url != Some("") ==>
        && resp == Started(id)
        && job != null && fresh(job) && fresh(job.process)
        && job.server == this && job.id == id
        && job.outputPath == DownloadPath(id)
        && job.process.args == FfmpegArgs(m3u8Url.value, DownloadPath(id))
        && job.process.state == Running
        && job.duration == 0 && job.lastProgress == 0.0
        && activeDownloads == old(activeDownloads)[id := Download(job.process, Downloading, DownloadPath(id))]
    {
      if m3u8Url == None || m3u8Url == Some("") {
        return Rejected(400, "M3U8 URL is required"), null;
      }
      var outputPath := DownloadPath(id);
      resp := Started(id);
      var process := new Process(FfmpegArgs(m3u8Url.value, outputPath));
      activeDownloads := activeDownloads[id := Download(process, Downloading, outputPath)];
      job := new Transcode(this, id, outputPath, process);
    }

    /** GET /download/:id (server/server.js:125-139): an existing file is sent
        as `video_<id>.mp4` and then deleted; otherwise 404. So a second
        retrieval of the same id is answered 404. */
    method Retrieve(id: string) returns (resp: Response)
      modifies this`files
      ensures var path := RetrievalPath(dirname, id);
        && files == old(files) - {path}
        && (path in old(files) ==> resp == FileSent(path, "video_" + id + ".mp4"))
        && (path !in old(files) ==> resp == Rejected(404, "File not found"))
    {
      var path := RetrievalPath(dirname, id);
      if path in files {
        resp := FileSent(path, "video_" + id + ".mp4");
        files := files - {path};
      } else {
        resp := Rejected(404, "File not found");
      }
    }

    /** POST /download/control/:id (server/server.js:141-206). */
    method Control(id: string, action: string) returns (resp: Response)
      requires Valid()
      modifies this`activeDownloads, this`files, ProcessOf(id)
      ensures Valid()
      // a rejected request changes nothing
      ensures resp.Rejected? ==> activeDownloads == old(activeDownloads) && files == old(files)
      // an unknown id is answered 404
      ensures id !in old(activeDownloads) ==>
        resp == Rejected(404, "Download not found") &&
        activeDownloads == old(activeDownloads) && files == old(files)
      ensures id in old(activeDownloads) ==>
        var d := old(activeDownloads[id]);
        && (action == "pause" ==>
              if d.process != null && d.status == Downloading then
                && resp == Accepted("paused")
                && activeDownloads == old(activeDownloads)[id := d.(status := Paused)]
                && d.process.state == AfterSignal(old(d.process.state), if win32 then SIGTERM else SIGSTOP)
                && files == old(files)
              else
                && resp == Rejected(400, "Download cannot be paused")
                && activeDownloads == old(activeDownloads) && files == old(files)
                && (d.process != null ==> d.process.state == old(d.process.state)))
        && (action == "resume" ==>
              if d.process != null && d.status == Paused && !win32 then
                && resp == Accepted("resumed")
                && activeDownloads == old(activeDownloads)[id := d.(status := Downloading)]
                && d.process.state == AfterSignal(old(d.process.state), SIGCONT)
                && files == old(files)
              else
                && resp == Rejected(400, if d.process != null && d.status == Paused
                                         then "Resume not supported on Windows"
                                         else "Download cannot be resumed")
                && activeDownloads == old(activeDownloads) && files == old(files)
                && (d.process != null ==> d.process.state == old(d.process.state)))
        && (action == "cancel" ==>
              if d.process != null then
                && resp == Accepted("cancelled")
                && activeDownloads == old(activeDownloads) - {id}
                && files == old(files) - {d.outputPath}
                && d.process.state == AfterSignal(old(d.process.state), SIGTERM)
              else
                && resp == Rejected(400, "Download cannot be cancelled")
                && activeDownloads == old(activeDownloads) && files == old(files))
        && (action !in {"pause", "resume", "cancel"} ==>
              && resp == Rejected(400, "Invalid action")
              && activeDownloads == old(activeDownloads) && files == old(files)
              && (d.process != null ==> d.process.state == old(d.process.state)))
    {
      if id !in activeDownloads {
        return Rejected(404, "Download not found");
      }
      var download := activeDownloads[id];
      if action == "pause" {
        if download.process != null && download.status == Downloading {
          if win32 {
            download.process.Kill(SIGTERM);
          } else {
            download.process.Kill(SIGSTOP);
          }
          activeDownloads := activeDownloads[id := download.(status := Paused)];
          resp := Accepted("paused");
        } else {
          resp := Rejected(400, "Download cannot be paused");
        }
      } else if action == "resume" {
        if download.process != null && download.status == Paused {
          if win32 {
            resp := Rejected(400, "Resume not supported on Windows");
          } else {
            download.process.Kill(SIGCONT);
            activeDownloads := activeDownloads[id := download.(status := Downloading)];
            resp := Accepted("resumed");
          }
        } else {
          resp := Rejected(400, "Download cannot be resumed");
        }
      } else if action == "cancel" {
        if download.process != null {
          download.process.Kill(SIGTERM);
          files := files - {download.outputPath};
          activeDownloads := activeDownloads - {id};
          resp := Accepted("cancelled");
        } else {
          resp := Rejected(400, "Download cannot be cancelled");
        }
      } else {
        resp := Rejected(400, "Invalid action");
      }
    }
  }

  /** The state one call of POST /download closes over: the download's id,
      output path and process, and the `duration` and `lastProgress`
      variables of its stderr handler. Its methods are the handlers attached
      to that process. */
  class Transcode {
    const server: Server
    const id: string
    const outputPath: string
    const process: Process
    var duration: nat
    var lastProgress: real

    constructor (server: Server, id: string, outputPath: string, process: Process)
      ensures this.server == server && this.id == id
      ensures this.outputPath == outputPath && this.process == process
      ensures duration == 0 && lastProgress == 0.0
    {
      this.server := server;
      this.id := id;
      this.outputPath := outputPath;
      this.process := process;
      duration := 0;
      lastProgress := 0.0;
    }

    /** The stderr `data` handler (server/server.js:57-94): the duration and
        `lastProgress` advance as Step says on the chunk's reading, and an update that passes the
        throttle is written as `{percent: Math.round(progress), time}` to the
        registered stream, or dropped when there is none. */
    method OnStderr(chunk: string)
      requires server.Valid()
      modifies this, server`subscribers
      ensures server.Valid()
      ensures var r := Step(Tracker(old(duration), old(lastProgress)), ReadChunk(chunk));
        && Tracker(duration, lastProgress) == r.after
        && server.subscribers ==
             if r.sent.Some? && id in old(server.subscribers)
             then old(server.subscribers)[id := old(server.subscribers)[id]
                    + [ProgressEvent(Round(r.sent.value.progress), r.sent.value.time)]]
             else old(server.subscribers)
    {
      if duration == 0 {
        var durationMatch := FindStamp(chunk, DurationLabel);
        if durationMatch.Some? {
          duration := StampCentis(durationMatch.value);
        }
      }
      var timeMatch := FindStamp(chunk, TimeLabel);
      if timeMatch.Some? {
        var currentTime := StampCentis(timeMatch.value);
        var progress := Percent(currentTime, duration);
        if Abs(progress - lastProgress) >= 1.0 {
          lastProgress := progress;
          if id in server.subscribers {
            var log := server.subscribers[id];
            var event := ProgressEvent(Round(progress), timeMatch.value);
            assert NoTerminal(log + [event]) by {
              assert forall i :: 0 <= i < |log| ==> (log + [event])[i] == log[i];
            }
            server.subscribers := server.subscribers[id := log + [event]];
          }
        }
      }
    }

    /** The `close` handler (server/server.js:96-108): a registered stream gets
        `complete` for exit code 0 and an error with the code otherwise, and is
        ended and removed; the entry for the id is removed in any case. */
    method OnClose(code: Option<int>)
      requires server.Valid()
      modifies server`subscribers, server`activeDownloads, server`ended
      ensures server.Valid()
      ensures server.activeDownloads == old(server.activeDownloads) - {id}
      ensures server.subscribers == old(server.subscribers) - {id}
      ensures server.ended ==
        if id in old(server.subscribers)
        then old(server.ended) + [Stream(id, old(server.subscribers[id]) + [CloseEvent(id, code)])]
        else old(server.ended)
    {
      if id in server.subscribers {
        EndStream(CloseEvent(id, code));
      }
      server.activeDownloads := server.activeDownloads - {id};
    }

    /** The `error` handler (server/server.js:110-122): a registered stream gets
        an error with the message and is ended and removed, the partial output
        file is deleted, and the entry for the id is removed. */
    method OnError(message: string)
      requires server.Valid()
      modifies server`subscribers, server`activeDownloads, server`ended, server`files
      ensures server.Valid()
      ensures server.activeDownloads == old(server.activeDownloads) - {id}
      ensures server.subscribers == old(server.subscribers) - {id}
      ensures server.files == old(server.files) - {outputPath}
      ensures server.ended ==
        if id in old(server.subscribers)
        then old(server.ended) + [Stream(id, old(server.subscribers[id]) + [SpawnErrorEvent(message)])]
        else old(server.ended)
    {
      if id in server.subscribers {
        EndStream(SpawnErrorEvent(message));
      }
      server.files := server.files - {outputPath};
      server.activeDownloads := server.activeDownloads - {id};
    }

    /** ffmpeg creating or extending its output file: `outputPath` exists
        afterwards. This is the process's own doing, not a handler of the
        server. */
    method OnOutputWritten()
      modifies server`files
      ensures server.files == old(server.files) + {outputPath}
    {
      server.files := server.files + {outputPath};
    }

    /** `sseRes.write(event); sseRes.end(); delete app.locals[id]`. */
    method EndStream(last: Event)
      requires server.Valid() && id in server.subscribers && last.IsTerminal()
      modifies server`subscribers, server`ended
      ensures server.Valid()
      ensures server.subscribers == old(server.subscribers) - {id}
      ensures server.ended == old(server.ended) + [Stream(id, old(server.subscribers[id]) + [last])]
    {
      var log := server.subscribers[id] + [last];
      assert log[..|log| - 1] == server.subscribers[id];
      server.ended := server.ended + [Stream(id, log)];
      server.subscribers := server.subscribers - {id};
    }
  }
}
