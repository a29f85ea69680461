/**
 * The job registry of the upscale service: `AppState.request_status` in
 * src/main.rs, a map from request id to status string that every upload
 * writes twice (once "Processing", once a terminal status) and
 * `get_status` reads.
 */
module Registry {
  import opened Wrappers
  import opened Jobs

  /** One `insert` into the status map. */
  datatype Write = Write(id: string, status: Status)

  /** The map after one insert: the id's entry becomes the status name. */
  function Apply(m: map<string, string>, w: Write): map<string, string> {
    m[w.id := w.status.Name()]
  }

  /** The map after a sequence of inserts, applied in order. */
  function Replay(m: map<string, string>, ws: seq<Write>): map<string, string>
    decreases |ws|
  {
    if ws == [] then m else Apply(Replay(m, ws[..|ws| - 1]), ws[|ws| - 1])
  }

  /** The inserts made under one id, in order. */
  function OwnWrites(ws: seq<Write>, id: string): seq<Write>
    decreases |ws|
  {
    if ws == [] then []
    else OwnWrites(ws[..|ws| - 1], id) + (if ws[|ws| - 1].id == id then [ws[|ws| - 1]] else [])
  }

  /** A map lookup: the stored status, or not-found. */
  function Lookup(m: map<string, string>, id: string): Option<string> {
    if id in m then Some(m[id]) else None
  }

  /**
   * The inserts one request makes under its own id: none yet, the initial
   * "Processing", or that followed by one terminal status.
   */
  predicate JobHistory(ws: seq<Write>) {
    && |ws| <= 2
    && (|ws| >= 1 ==> ws[0].status == Processing)
    && (|ws| == 2 ==> ws[1].status.Terminal())
  }

  /** Appending one insert to a log applies it last and adds it to its own id's writes only. */
  lemma ReplaySnoc(m: map<string, string>, ws: seq<Write>, w: Write)
    ensures Replay(m, ws + [w]) == Apply(Replay(m, ws), w)
    ensures OwnWrites(ws + [w], w.id) == OwnWrites(ws, w.id) + [w]
    ensures forall id :: id != w.id ==> OwnWrites(ws + [w], id) == OwnWrites(ws, id)
  {
    assert (ws + [w])[..|ws|] == ws;
  }

  /**
   * After any sequence of inserts, an id's entry is the status of the last
   * insert made under that id, or its entry before them if there was none:
   * inserts under other ids never change it.
   */
  lemma {:induction false} ReplayLookup(m: map<string, string>, ws: seq<Write>, id: string)
    ensures Lookup(Replay(m, ws), id) ==
      var own := OwnWrites(ws, id);
      if own == [] then Lookup(m, id) else Some(own[|own| - 1].status.Name())
    decreases |ws|
  {
    if ws != [] {
      var init, w := ws[..|ws| - 1], ws[|ws| - 1];
      assert ws == init + [w];
      ReplaySnoc(m, init, w);
      ReplayLookup(m, init, id);
    }
  }

  /** The writes under one id of a concatenated log are those of each part, in order. */
  lemma {:induction false} OwnWritesAppend(xs: seq<Write>, ys: seq<Write>, id: string)
    ensures OwnWrites(xs + ys, id) == OwnWrites(xs, id) + OwnWrites(ys, id)
    decreases |ys|
  {
    if ys == [] {
      assert xs + ys == xs;
    } else {
      var init, w := ys[..|ys| - 1], ys[|ys| - 1];
      assert xs + ys == (xs + init) + [w];
      assert ys == init + [w];
      ReplaySnoc(map[], xs + init, w);
      ReplaySnoc(map[], init, w);
      OwnWritesAppend(xs, init, id);
    }
  }

  /**
   * Terminal statuses are absorbing: when every request's own inserts follow
   * the Processing-then-terminal shape, an id seen with a terminal status
   * after some prefix of the inserts keeps that status at the end.
   */
  lemma TerminalIsAbsorbing(ws: seq<Write>, k: nat, id: string)
    requires k <= |ws|
    requires JobHistory(OwnWrites(ws, id))
    requires Lookup(Replay(map[], ws[..k]), id).Some?
    requires ParseStatus(Lookup(Replay(map[], ws[..k]), id).value) != Some(Processing)
    ensures Lookup(Replay(map[], ws), id) == Lookup(Replay(map[], ws[..k]), id)
  {
    var prefix, suffix := ws[..k], ws[k..];
    assert ws == prefix + suffix;
    OwnWritesAppend(prefix, suffix, id);
    var before, after := OwnWrites(prefix, id), OwnWrites(suffix, id);
    var all := OwnWrites(ws, id);
    assert all == before + after;
    ReplayLookup(map[], prefix, id);
    assert before != [];
    var last := before[|before| - 1].status;
    ParseName(last, last.Name());
    assert last != Processing;
    assert |before| == 2;
    assert after == [];
    assert all == before;
    ReplayLookup(map[], ws, id);
  }

  /**
   * `AppState` of src/main.rs: the cache directory and the status map.
   * The ghost `log` records every insert ever made.
   */
  class AppState {
    const cacheDir: string
    var requestStatus: map<string, string>
    ghost var log: seq<Write>

    /**
     * The map is the replay of the log from the empty map, and every id's
     * own inserts are "Processing" followed by at most one terminal status.
     */
    ghost predicate Valid()
      reads this
    {
      && requestStatus == Replay(map[], log)
      && forall id :: JobHistory(OwnWrites(log, id))
    }

    /** The server starts with an empty status map. */
    constructor (cacheDir: string)
      ensures Valid()
      ensures this.cacheDir == cacheDir && requestStatus == map[] && log == []
    {
      this.cacheDir := cacheDir;
      requestStatus := map[];
      log := [];
    }

    /** An id is absent from the map exactly when no request has written it. */
    lemma AbsentIffUnwritten(id: string)
      requires Valid()
      ensures id !in requestStatus <==> OwnWrites(log, id) == []
    {
      ReplayLookup(map[], log, id);
    }

    /**
     * A request records its fresh id as "Processing" before reading any
     * part of the upload. Every other id keeps its entry.
     */
    method Begin(id: string)
      requires Valid()
      requires id !in requestStatus
      modifies this`requestStatus, this`log
      ensures Valid()
      ensures requestStatus == old(requestStatus)[id := Processing.Name()]
      ensures log == old(log) + [Write(id, Processing)]
    {
      AbsentIffUnwritten(id);
      var w := Write(id, Processing);
      ReplaySnoc(map[], log, w);
      requestStatus := requestStatus[id := Processing.Name()];
      log := log + [w];
    }

    /**
     * A request overwrites its own "Processing" entry with the classified
     * terminal status and returns that status string. Every other id keeps
     * its entry.
     */
    method Finish(id: string, wait: WaitResult, artifactExists: bool) returns (status: string)
      requires Valid()
      requires id in requestStatus && requestStatus[id] == Processing.Name()
      modifies this`requestStatus, this`log
      ensures Valid()
      ensures status == Classify(wait, artifactExists).Name()
      ensures ParseStatus(status) != Some(Processing)
      ensures requestStatus == old(requestStatus)[id := status]
      ensures log == old(log) + [Write(id, Classify(wait, artifactExists))]
    {
      var s := Classify(wait, artifactExists);
      ParseName(s, s.Name());
      ReplayLookup(map[], log, id);
      var own := OwnWrites(log, id);
      NameInjective(own[|own| - 1].status, Processing);
      var w := Write(id, s);
      ReplaySnoc(map[], log, w);
      requestStatus := requestStatus[id := s.Name()];
      log := log + [w];
      status := s.Name();
    }

    /**
     * `get_status`: the stored status of a known id, not-found for an id no
     * request has written; a known id's status is always one of the four.
     */
    function GetStatus(id: string): (r: Option<string>)
      requires Valid()
      reads this
      ensures r.Some? <==> id in requestStatus
      ensures r.Some? ==> r.value == requestStatus[id] && ParseStatus(r.value).Some?
      ensures r.None? <==> OwnWrites(log, id) == []
    {
      ReplayLookup(map[], log, id);
      if id in requestStatus then
        var own := OwnWrites(log, id);
        ParseName(own[|own| - 1].status, requestStatus[id]);
        Some(requestStatus[id])
      else None
    }
  }
}
