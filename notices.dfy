/**
 * The notification channel as the pages use it: `addNotification` appends one notice.
 * Display, expiry and dismissal belong to a context that is not part of this model.
 */
module Notices {

  datatype Kind = Success | Error | Warning | Info

  datatype Notice = Notice(kind: Kind, title: string, message: string)

  /** The log of every notice published, oldest first. */
  class Notifier {
    var log: seq<Notice>

    constructor ()
      ensures log == []
    {
      log := [];
    }

    /** `addNotification(n)`: publishes `n`; no de-duplication. */
    method Add(n: Notice)
      modifies this
      ensures log == old(log) + [n]
    {
      log := log + [n];
    }
  }
}
