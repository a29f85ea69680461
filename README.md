# Job bookkeeping of the ESRGAN upscale service

The service (`src/main.rs`) accepts an image upload on `POST /upscale`, stores it in a
cache directory, runs the `realesrgan-ncnn-vulkan` upscaler on it and answers with the
job's status; `GET /status/{request_id}` reports the status of a job by its id. This
project models the deterministic core of that handler in Dafny:

- the **status registry** (`AppState.request_status`, a map from request id to status
  string) as the class `Registry.AppState`, with `Begin` (the initial `"Processing"`
  insert), `Finish` (the terminal insert) and `GetStatus` (the `get_status` lookup). A
  ghost log of every insert ties the map to `Replay` of that log and keeps, for every id,
  the shape "Processing, then at most one terminal status";
- the **outcome classifier** (`Jobs.Classify`): `Ok` with the output file present gives
  `Completed`, `Ok` without it gives `Failed`, `Err` gives `Error` whatever the OS code;
- the **upload loop** (`Upload.ReceiveParts`): every multipart part reassigns the image
  name and both paths, so the last part wins; a part without a file name, or whose file
  cannot be created or written, panics the handler;
- the **paths and command line** (`Command`): `{cache}/{name}`, `{cache}/upscaled_{name}`
  and the argument list `-i <in> -o <out> -g 0 -s 2`, specified by a flag/value reader
  `FlagValue`;
- the **handler** (`Handler.UpscaleImagePost`), which runs the steps in the source's
  order under a fresh request id and returns the spawned command and the JSON response.

Behaviour of `src/main.rs` worth knowing:

- A failed spawn, a missing stdout handle or a failed line read panic the handler
  (`expect` at src/main.rs:98-104), so no status is recorded for them. The model
  treats every panic as an abort that leaves the id at `"Processing"`.
- An `Err` from waiting for the process gives `Error` even when the output file exists;
  the file is only checked after an `Ok` wait (src/main.rs:114-134).
- The output path is `{cache}/upscaled_{name}`, derived from the client's file name
  (src/main.rs:48); as `Command.InputOutputPathsCollide` shows, the input path of an
  upload named `upscaled_x` is the output path of an upload named `x`.
- An upload with no parts leaves both paths empty (src/main.rs:34-35); the empty path
  never exists, so a successful wait then records `Failed` (src/main.rs:116-123).
- The response carries only `status` and `request_id` (src/main.rs:136).

## Model

| member | source | states |
|---|---|---|
| `Jobs.Classify` | src/main.rs:114-134 | The status is terminal; it is `Completed` exactly when the wait returned `Ok` and the output file exists, `Failed` exactly when the wait returned `Ok` and the file does not exist, `Error` exactly when the wait returned `Err`. |
| `Jobs.ErrorIgnoresCodeAndArtifact` | src/main.rs:126-133 | A failed wait gives `Error` for every OS error code and whether or not the file exists; the code-8 case only adds a log line. |
| `Jobs.ParseName` | src/main.rs:118-132 | Each stored status string reads back as its status and no other string reads back as that status, so the strings written by the handler identify the status. |
| `Command.OriginalPath` | src/main.rs:47 | The stored path is the cache directory, then `/`, then exactly the file name. |
| `Command.UpscaledPath` | src/main.rs:48 | The output path is the stored path of the name with `upscaled_` in front. |
| `Command.OriginalPathInjective` | src/main.rs:47 | In one cache directory two names give the same stored path if and only if they are equal. |
| `Command.UpscaledPathInjective` | src/main.rs:48 | In one cache directory two names give the same output path if and only if they are equal. |
| `Command.InputOutputPathsCollide` | src/main.rs:47-48 | An input path equals an output path exactly when the input name is `upscaled_` followed by the output's name; one upload's input and output paths always differ. |
| `Command.ArgumentsDecode` | src/main.rs:80-89 | The argument list has 8 entries with `-i`, `-o`, `-g`, `-s` at the flag positions in that order; reading it back gives the input path for `-i`, the output path for `-o`, `0` for `-g`, `2` for `-s` and nothing for any other flag. |
| `Upload.ReceiveParts` | src/main.rs:42-72 | The loop gets through exactly when every part has a file name and is stored; then with no parts the name and both paths stay empty, and otherwise they are the last part's name and the stored and output paths built from it. |
| `Registry.ReplayLookup` | src/main.rs:40-131 | After any sequence of inserts, an id's entry is the status of the last insert under that id, or its earlier entry when there was none; inserts under other ids never change it. |
| `Registry.TerminalIsAbsorbing` | src/main.rs:110-134 | When each request writes "Processing" and then at most one terminal status, an id seen with a terminal status keeps it through every later insert. |
| `Registry.AppState.constructor` | src/main.rs:165-168 | The server starts with the given cache directory and an empty status map. |
| `Registry.AppState.AbsentIffUnwritten` | src/main.rs:144-147 | An id is missing from the map exactly when no request has inserted it. |
| `Registry.AppState.Begin` | src/main.rs:37-40 | A fresh id's entry becomes `"Processing"`, every other entry is unchanged, and the registry invariant is kept. |
| `Registry.AppState.Finish` | src/main.rs:110-134 | The id's `"Processing"` entry becomes the classified terminal status, the same string is returned, every other entry is unchanged, and the registry invariant is kept. |
| `Registry.AppState.GetStatus` | src/main.rs:139-148 | A known id yields its stored status, which is one of the four status strings; an id is not found exactly when no request ever inserted it; the map is only read. |
| `Handler.UpscaleImagePost` | src/main.rs:28-137 | The id is recorded as `"Processing"` first; the command `Program -i <in> -o <out> -g 0 -s 2` is spawned exactly when every part got through, with the last part's paths (empty paths when no part came); a response exists exactly when the process was also waited for, and then its status is the status classified from the wait result and whether the output path (empty when no part came) exists on disk, its id the request id, and the id's entry holds that same status; an empty upload with a successful wait answers `"Failed"`; after a panic the id stays at `"Processing"`; no other id's entry changes. |

## Left out

- HTTP and server setup: routing, JSON and `HttpResponse` construction, CORS, the `ping`
  handler and server start-up (src/main.rs:1-7, 151-183) are transport; the response is
  the record `Handler.Response`, and `get_status`'s 404 body is the `None` of `GetStatus`.
- Logging and tracing (`info!`, `error!`, `println!` of the process output, `init_tracing`
  at src/main.rs:185-199): no effect on state or responses.
- Upload streaming: the multipart stream, file creation and chunk writes
  (src/main.rs:42-72) are I/O; a part is reduced to its file name and one flag saying
  whether it got through. That flag is false when creating or writing its file fails,
  and also when the multipart item itself is an error (src/main.rs:43), when it has no
  content disposition (src/main.rs:44) or when a chunk read fails (src/main.rs:60);
  all of these panic the handler.
- The subprocess: spawning, draining stdout and `wait_with_output` (src/main.rs:90-108)
  are OS process I/O; the model takes their outcome as an input (`Handler.Run`), and
  the files on disk afterwards as a set of paths, against which `Handler.Exists` models
  `Path::exists` on the output path (src/main.rs:116).
- Request ids: `Uuid::new_v4` (src/main.rs:31) is a library call; the id is a parameter
  required to be absent from the map.
- Locking and concurrency: the two nested `tokio::sync::Mutex` locks are not modelled;
  registry operations are sequential calls. In the source the guards taken at
  src/main.rs:37-39 are still alive when src/main.rs:110 locks `data` again, so the
  handler waits on a lock it holds itself; the model does not capture this.
- Registry growth: entries are never removed, as in the source; no eviction is modelled.
- Registry.AppState.Finish: requires the id's entry to be `"Processing"`; the source's
  `insert` has no such guard, but its only caller is the handler that wrote that entry
  under the same fresh id, and the guard is what makes terminal statuses absorbing.
