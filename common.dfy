/** Identifiers, small wrapper types and the fixed configuration of the ticket bot. */
module Common {

  /** Discord snowflake identifiers; the bot keys its JSON documents by their decimal text,
      which is injective, so the model keys its maps by the integers themselves. */
  type GuildId = int
  type ChannelId = int
  type UserId = int
  type MessageId = int

  /** `datetime.now().isoformat()`: an opaque value supplied by the caller. */
  type Timestamp = string

  datatype Option<T> = None | Some(value: T)

  datatype Result<T, E> = Success(value: T) | Failure(error: E)

  /** The answer a command gives: it went through, or the reason it was refused. */
  datatype Outcome = Pass | Fail(error: CommandError)

  /** The refusals the bot answers with an ephemeral message. */
  datatype CommandError =
    | NotATicket              // the channel has no ticket record
    | Unauthorized            // the actor lacks ownership or the needed permission
    | StatusChannelNotFound   // no channel to post the status banner in

  /** The five panel buttons; each carries the category label the bot stores as `type`. */
  datatype TicketType = NewOrder | OrderIssue | RefundRequest | GeneralSupport | CheckReferral {
    function Label(): string {
      match this
      case NewOrder => "New Order"
      case OrderIssue => "Order Issue"
      case RefundRequest => "Refund Request"
      case GeneralSupport => "General Support"
      case CheckReferral => "Check Referral"
    }

    /** The panel asks for a group-order link (a required modal field) before opening these. */
    predicate RequiresLink() {
      this == NewOrder || this == OrderIssue || this == RefundRequest
    }
  }

  /** Name of the channel the status banner goes to by preference. */
  const StatusChannelName: string := "order-status"
}
