/**
 The durable record of one channel, as the operations of `SessionState` rewrite it. Each
 operation is one atomic rename (or one removal), so it is a function on the record.
 */
module SessionRecord {

  import opened Options
  import opened AcpServer

  datatype Record = Absent | Blocked(id: Option<Conv>) | Ready(conv: Conv)

  function IdOf(r: Record): Option<Conv> {
    match r
    case Absent => None
    case Blocked(id) => id
    case Ready(conv) => Some(conv)
  }

  function Invalidate(r: Record): Record {
    match r
    case Absent => Blocked(None)
    case Blocked(id) => Blocked(id)
    case Ready(conv) => Blocked(Some(conv))
  }

  /** `reconcile` with a retirement proof: a blocked record becomes ready, or goes when it names nobody. */
  function Reconcile(r: Record): Record {
    match r
    case Blocked(None) => Absent
    case Blocked(Some(conv)) => Ready(conv)
    case _ => r
  }
}
