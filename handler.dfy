/**
 * `upscale_image_post` of src/main.rs as one sequential run: record the
 * fresh id, take in the upload, run the upscaler, classify and record the
 * outcome, answer.
 */
module Handler {
  import opened Wrappers
  import opened Jobs
  import opened Command
  import opened Upload
  import opened Registry

  /** The JSON answer `{"status": status, "data": {"request_id": requestId}}`. */
  datatype Response = Response(status: string, requestId: string)

  /**
   * What the subprocess stage yields: a panic (spawn failure, no stdout
   * handle, a failed line read), or the result of waiting for the child.
   */
  datatype Run = Panicked | Waited(result: WaitResult)

  /**
   * `Path::exists`, given the set of files on disk after the process ran.
   * The empty path names no file, so it never exists.
   */
  predicate Exists(onDisk: set<string>, path: string) {
    path != "" && path in onDisk
  }

  /**
   * One upload request under a fresh id. The handler returns the command it
   * spawns (none when the upload panicked first) and its response (none when
   * it panicked). A panic leaves the id at "Processing"; otherwise the id's
   * entry and the response carry the same classified status, decided by
   * whether the output path exists in `onDisk`. An upload without parts
   * leaves the output path empty, so a successful wait then gives "Failed".
   * No other id's entry changes.
   */
  method UpscaleImagePost(app: AppState, requestId: string, parts: seq<Part>, run: Run, onDisk: set<string>)
    returns (command: Option<Invocation>, response: Option<Response>)
    requires app.Valid()
    requires requestId !in app.requestStatus
    modifies app`requestStatus, app`log
    ensures app.Valid()
    ensures command.Some? <==> forall i :: 0 <= i < |parts| ==> Accepted(parts[i])
    ensures command.Some? && parts == [] ==> command.value == UpscaleCommand("", "")
    ensures command.Some? && parts != [] ==>
      var name := parts[|parts| - 1].filename.value;
      command.value == UpscaleCommand(OriginalPath(app.cacheDir, name), UpscaledPath(app.cacheDir, name))
    ensures response.Some? <==> command.Some? && run.Waited?
    ensures response.None? ==> app.requestStatus == old(app.requestStatus)[requestId := Processing.Name()]
    ensures response.Some? ==>
      var outPath := if parts == [] then "" else UpscaledPath(app.cacheDir, parts[|parts| - 1].filename.value);
      && response.value == Response(Classify(run.result, Exists(onDisk, outPath)).Name(), requestId)
      && app.requestStatus == old(app.requestStatus)[requestId := response.value.status]
    ensures response.Some? && parts == [] && run.result.WaitOk? ==> response.value.status == Failed.Name()
  {
    app.Begin(requestId);
    ghost var begun := app.requestStatus;
    var ok, imageName, originalPath, upscaledPath := ReceiveParts(app.cacheDir, parts);
    command, response := None, None;
    if ok {
      command := Some(UpscaleCommand(originalPath, upscaledPath));
      if run.Waited? {
        var artifactExists := Exists(onDisk, upscaledPath);
        var status := app.Finish(requestId, run.result, artifactExists);
        response := Some(Response(status, requestId));
        assert app.requestStatus == begun[requestId := status];
        assert begun[requestId := status] == old(app.requestStatus)[requestId := status];
        assert response.value == Response(Classify(run.result, artifactExists).Name(), requestId);
      }
    }
  }
}
