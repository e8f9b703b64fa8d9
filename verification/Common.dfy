/** Types shared by every component of the transaction platform. */
module Common {

  datatype Option<+T> = None | Some(value: T) {
    function GetOr(default: T): T {
      match this
      case None => default
      case Some(v) => v
    }
  }

  // What becomes of one command to a server: it took effect and the reply arrived, it
  // never arrived, or it took effect and the reply was lost. The sender cannot tell the
  // last two apart.
  datatype Sending = Heard | Unsent | Unheard

  lemma {:induction false} SubsetIsSmaller<T>(a: set<T>, b: set<T>)
    requires a <= b
    ensures |a| <= |b|
  {
    if a != {} {
      var x :| x in a;
      SubsetIsSmaller(a - {x}, b - {x});
    }
  }

  // Primary keys (UUIDs in the system).
  type JobId = int
}
