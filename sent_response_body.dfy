/**
 * The result every send operation returns: the service's own `status` and
 * `message`, or the sentinel status when the outcome is unknown.
 */
module SentResponse {
  import opened Java

  /** `Integer.MIN_VALUE`, the status meaning "outcome unknown". */
  const UNKNOWN_STATUS: Int32 := INT_MIN

  /** The two properties a `SentResponseBody` holds; a null `message` is `None`. */
  datatype Fields = Fields(status: Int32, message: Option<string>)

  /** What a `SentResponseBody` built by its no-argument constructor holds. */
  const DEFAULT: Fields := Fields(UNKNOWN_STATUS, None)

  /** The sentinel is the least `int`, below every status the service can report. */
  lemma SentinelIsLeast(x: Int32)
    ensures DEFAULT.status <= x
    ensures DEFAULT.status == -2147483648
  {
  }

  /**
   * The mutable bean. Its getters are the field reads `status` and `message`;
   * its setters are `SetStatus` and `SetMessage`.
   */
  class SentResponseBody {
    var status: Int32
    var message: Option<string>

    /** The value the object currently holds. */
    function Value(): Fields
      reads this
    {
      Fields(status, message)
    }

    /** The no-argument constructor: sentinel status, message left null. */
    constructor ()
      ensures status == UNKNOWN_STATUS
      ensures message == None
    {
      status := UNKNOWN_STATUS;
      message := None;
    }

    /** The all-arguments constructor: stores exactly what it is given. */
    constructor AllArgs(status: Int32, message: Option<string>)
      ensures this.status == status
      ensures this.message == message
    {
      this.status := status;
      this.message := message;
    }

    method SetStatus(status: Int32)
      modifies this
      ensures this.status == status
      ensures message == old(message)
    {
      this.status := status;
    }

    method SetMessage(message: Option<string>)
      modifies this
      ensures this.message == message
      ensures status == old(status)
    {
      this.message := message;
    }
  }
}
