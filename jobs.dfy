/**
 * Job statuses and the outcome classifier of the upscale handler
 * (src/main.rs, the `match output` at the end of `upscale_image_post`).
 */
module Jobs {
  import opened Wrappers

  /** The four strings the registry ever stores for a job. */
  datatype Status = Processing | Completed | Failed | Error {
    /** A terminal status is one the handler writes after the external process. */
    predicate Terminal() {
      this != Processing
    }

    /** The exact string stored in the registry and sent in the JSON response. */
    function Name(): string {
      match this
      case Processing => "Processing"
      case Completed => "Completed"
      case Failed => "Failed"
      case Error => "Error"
    }
  }

  /** Reads a stored status string back; `None` for any other string. */
  function ParseStatus(s: string): Option<Status> {
    if s == "Processing" then Some(Processing)
    else if s == "Completed" then Some(Completed)
    else if s == "Failed" then Some(Failed)
    else if s == "Error" then Some(Error)
    else None
  }

  /** Every status string parses back to its status, and only its own name does. */
  lemma ParseName(s: Status, t: string)
    ensures ParseStatus(s.Name()) == Some(s)
    ensures ParseStatus(t) == Some(s) ==> t == s.Name()
  {
  }

  /** Distinct statuses are stored as distinct strings. */
  lemma NameInjective(s: Status, u: Status)
    ensures s.Name() == u.Name() ==> s == u
  {
    ParseName(s, u.Name());
    ParseName(u, u.Name());
  }

  /**
   * The result of waiting for the child process: `Ok` or an I/O error
   * carrying the raw OS error code when there is one.
   */
  datatype WaitResult = WaitOk | WaitErr(rawOsError: Option<int>)

  /**
   * The terminal status of a job, from the wait result and whether the
   * upscaled file exists afterwards. The existence check is only made when
   * the wait succeeded.
   */
  function Classify(wait: WaitResult, artifactExists: bool): (s: Status)
    ensures s.Terminal()
    ensures s == Completed <==> wait.WaitOk? && artifactExists
    ensures s == Failed <==> wait.WaitOk? && !artifactExists
    ensures s == Error <==> wait.WaitErr?
  {
    match wait
    case WaitOk => if artifactExists then Completed else Failed
    case WaitErr(_) => Error
  }

  /**
   * A failed wait gives `Error` whatever the OS error code and whether or not
   * an output file is on disk. (For code 8, exec format error, the handler
   * only logs an extra line.)
   */
  lemma ErrorIgnoresCodeAndArtifact(c1: Option<int>, c2: Option<int>, e1: bool, e2: bool)
    ensures Classify(WaitErr(c1), e1) == Classify(WaitErr(c2), e2) == Error
  {
  }
}
