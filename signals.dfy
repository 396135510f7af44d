/**
 * The Linux signal set of the `nix` crate's `Signal` type, and the name its
 * `Display` implementation writes for each (`Signal::as_str`).
 */
module Signals {
  import opened Wrappers

  datatype Signal =
    | SIGHUP | SIGINT | SIGQUIT | SIGILL | SIGTRAP | SIGABRT | SIGBUS | SIGFPE
    | SIGKILL | SIGUSR1 | SIGSEGV | SIGUSR2 | SIGPIPE | SIGALRM | SIGTERM
    | SIGSTKFLT | SIGCHLD | SIGCONT | SIGSTOP | SIGTSTP | SIGTTIN | SIGTTOU
    | SIGURG | SIGXCPU | SIGXFSZ | SIGVTALRM | SIGPROF | SIGWINCH | SIGIO
    | SIGPWR | SIGSYS

  /** `signal.to_string()`: the symbolic name of the signal. */
  function Name(sig: Signal): (s: string)
  {
    match sig
    case SIGHUP => "SIGHUP"
    case SIGINT => "SIGINT"
    case SIGQUIT => "SIGQUIT"
    case SIGILL => "SIGILL"
    case SIGTRAP => "SIGTRAP"
    case SIGABRT => "SIGABRT"
    case SIGBUS => "SIGBUS"
    case SIGFPE => "SIGFPE"
    case SIGKILL => "SIGKILL"
    case SIGUSR1 => "SIGUSR1"
    case SIGSEGV => "SIGSEGV"
    case SIGUSR2 => "SIGUSR2"
    case SIGPIPE => "SIGPIPE"
    case SIGALRM => "SIGALRM"
    case SIGTERM => "SIGTERM"
    case SIGSTKFLT => "SIGSTKFLT"
    case SIGCHLD => "SIGCHLD"
    case SIGCONT => "SIGCONT"
    case SIGSTOP => "SIGSTOP"
    case SIGTSTP => "SIGTSTP"
    case SIGTTIN => "SIGTTIN"
    case SIGTTOU => "SIGTTOU"
    case SIGURG => "SIGURG"
    case SIGXCPU => "SIGXCPU"
    case SIGXFSZ => "SIGXFSZ"
    case SIGVTALRM => "SIGVTALRM"
    case SIGPROF => "SIGPROF"
    case SIGWINCH => "SIGWINCH"
    case SIGIO => "SIGIO"
    case SIGPWR => "SIGPWR"
    case SIGSYS => "SIGSYS"
  }

  /**
   * The signal a name stands for, if any: the inverse of `Name`. The names
   * are told apart by their fourth, fifth and last letters.
   */
  function FromName(s: string): Option<Signal> {
    if |s| < 5 then None
    else
      match s[3]
      case 'H' => if s == "SIGHUP" then Some(SIGHUP) else None
      case 'I' =>
        (match s[4]
         case 'N' => if s == "SIGINT" then Some(SIGINT) else None
         case 'L' => if s == "SIGILL" then Some(SIGILL) else None
         case 'O' => if s == "SIGIO" then Some(SIGIO) else None
         case _ => None)
      case 'Q' => if s == "SIGQUIT" then Some(SIGQUIT) else None
      case 'T' =>
        (match s[4]
         case 'R' => if s == "SIGTRAP" then Some(SIGTRAP) else None
         case 'E' => if s == "SIGTERM" then Some(SIGTERM) else None
         case 'S' => if s == "SIGTSTP" then Some(SIGTSTP) else None
         case 'T' =>
           (match s[|s| - 1]
            case 'N' => if s == "SIGTTIN" then Some(SIGTTIN) else None
            case 'U' => if s == "SIGTTOU" then Some(SIGTTOU) else None
            case _ => None)
         case _ => None)
      case 'A' =>
        (match s[4]
         case 'B' => if s == "SIGABRT" then Some(SIGABRT) else None
         case 'L' => if s == "SIGALRM" then Some(SIGALRM) else None
         case _ => None)
      case 'B' => if s == "SIGBUS" then Some(SIGBUS) else None
      case 'F' => if s == "SIGFPE" then Some(SIGFPE) else None
      case 'K' => if s == "SIGKILL" then Some(SIGKILL) else None
      case 'U' =>
        (match s[4]
         case 'S' =>
           (match s[|s| - 1]
            case '1' => if s == "SIGUSR1" then Some(SIGUSR1) else None
            case '2' => if s == "SIGUSR2" then Some(SIGUSR2) else None
            case _ => None)
         case 'R' => if s == "SIGURG" then Some(SIGURG) else None
         case _ => None)
      case 'S' =>
        (match s[4]
         case 'E' => if s == "SIGSEGV" then Some(SIGSEGV) else None
         case 'T' =>
           (match s[|s| - 1]
            case 'T' => if s == "SIGSTKFLT" then Some(SIGSTKFLT) else None
            case 'P' => if s == "SIGSTOP" then Some(SIGSTOP) else None
            case _ => None)
         case 'Y' => if s == "SIGSYS" then Some(SIGSYS) else None
         case _ => None)
      case 'P' =>
        (match s[4]
         case 'I' => if s == "SIGPIPE" then Some(SIGPIPE) else None
         case 'R' => if s == "SIGPROF" then Some(SIGPROF) else None
         case 'W' => if s == "SIGPWR" then Some(SIGPWR) else None
         case _ => None)
      case 'C' =>
        (match s[4]
         case 'H' => if s == "SIGCHLD" then Some(SIGCHLD) else None
         case 'O' => if s == "SIGCONT" then Some(SIGCONT) else None
         case _ => None)
      case 'X' =>
        (match s[4]
         case 'C' => if s == "SIGXCPU" then Some(SIGXCPU) else None
         case 'F' => if s == "SIGXFSZ" then Some(SIGXFSZ) else None
         case _ => None)
      case 'V' => if s == "SIGVTALRM" then Some(SIGVTALRM) else None
      case 'W' => if s == "SIGWINCH" then Some(SIGWINCH) else None
      case _ => None
  }

  /** Every signal can be recovered from its name. */
  lemma NameRoundTrip(sig: Signal)
    ensures FromName(Name(sig)) == Some(sig)
  {
    match sig
    case SIGHUP =>
    case SIGINT =>
    case SIGQUIT =>
    case SIGILL =>
    case SIGTRAP =>
    case SIGABRT =>
    case SIGBUS =>
    case SIGFPE =>
    case SIGKILL =>
    case SIGUSR1 =>
    case SIGSEGV =>
    case SIGUSR2 =>
    case SIGPIPE =>
    case SIGALRM =>
    case SIGTERM =>
    case SIGSTKFLT =>
    case SIGCHLD =>
    case SIGCONT =>
    case SIGSTOP =>
    case SIGTSTP =>
    case SIGTTIN =>
    case SIGTTOU =>
    case SIGURG =>
    case SIGXCPU =>
    case SIGXFSZ =>
    case SIGVTALRM =>
    case SIGPROF =>
    case SIGWINCH =>
    case SIGIO =>
    case SIGPWR =>
    case SIGSYS =>
  }

  /** No two signals share a name. */
  lemma NameInjective(a: Signal, b: Signal)
    ensures Name(a) == Name(b) ==> a == b
  {
    NameRoundTrip(a);
    NameRoundTrip(b);
  }
}
