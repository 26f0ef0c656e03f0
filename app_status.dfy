/** The status shown in the status bar. */
module AppStatusTable {

  datatype AppStatus = STARTUP | PROCESSING | DONE | ERROR

  /** `AppStatus::default()`: no request made yet. */
  const Default := STARTUP

  /** The status text: nothing at startup. */
  function ToStr(s: AppStatus): (r: seq<char>)
    ensures r == [] <==> s == STARTUP
  {
    match s
    case STARTUP => ""
    case PROCESSING => "Processing"
    case DONE => "Done"
    case ERROR => "Error"
  }

  /** Different statuses show different texts. */
  lemma ToStrInjective(s: AppStatus, t: AppStatus)
    requires ToStr(s) == ToStr(t)
    ensures s == t
  {
  }
}
