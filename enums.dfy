/** The two numeric enumerations of lib/config/enum.ts. TypeScript numbers
    the members of a plain `enum` from 0 in declaration order; `Code` gives
    that number, which is what goes over the wire. */
module Enums {

  /** Backend-owned order lifecycle states (ORDER_STATUS). */
  datatype OrderStatus = Pending | Confirmed | Executed | Success | Fail | Canceled {
    function Code(): nat {
      match this
      case Pending => 0
      case Confirmed => 1
      case Executed => 2
      case Success => 3
      case Fail => 4
      case Canceled => 5
    }
  }

  /** One recipient (SINGLE) or many recipients (MULTIPLE) (TRANSFER_TYPE). */
  datatype TransferType = Single | Multiple {
    function Code(): nat {
      match this
      case Single => 0
      case Multiple => 1
    }
  }
}
