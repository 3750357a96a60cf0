/** Vocabulary shared by every component: optional values and the status enumerations of utils/enums.py. */
module Types {

  datatype Option<+T> = None | Some(value: T)

  datatype EmailStatus =
    | Draft | Queued | Sending | Sent | Delivered | Opened | Clicked
    | Bounced | Spam | Failed | Cancelled | Received

  datatype AttemptStatus = Pending | InFlight | Confirmed | Rejected | Withdrawn

  datatype Folder = Inbox | SentMail | Drafts | Junk | Archive | Trash

  /** Lifecycle order of an outbound status; a status outside the table ranks lowest. */
  function Rank(s: EmailStatus): nat {
    match s
    case Queued => 0
    case Sending => 1
    case Sent => 2
    case Delivered => 3
    case Opened => 4
    case Clicked => 5
    case Bounced => 6
    case Spam => 6
    case Failed => 6
    case Cancelled => 6
    case Draft => 0
    case Received => 0
  }
}
