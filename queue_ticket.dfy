/** The ticket screen: the live position and wait, the status badge and the buttons. */
module QueueTicket {
  import JoinQueueFlow

  datatype Color = Green | Red | Blue | Gray

  /** The status badge's text: a translated word for the three known statuses, the
      status itself for any other. */
  datatype StatusText = ActiveText | CancelledText | CompletedText | Raw(s: string)

  function GetStatusColor(status: string): Color {
    if status == "active" then Green
    else if status == "cancelled" then Red
    else if status == "completed" then Blue
    else Gray
  }

  function GetStatusText(status: string): StatusText {
    if status == "active" then ActiveText
    else if status == "cancelled" then CancelledText
    else if status == "completed" then CompletedText
    else Raw(status)
  }

  /** The two mappings agree: a status is gray exactly when it is shown raw, and a
      raw status is shown as written. */
  lemma ColorMatchesText(status: string)
    ensures GetStatusColor(status) == Gray <==> GetStatusText(status).Raw?
    ensures GetStatusText(status).Raw? ==> GetStatusText(status).s == status
    ensures GetStatusColor(status) == Green <==> GetStatusText(status) == ActiveText
    ensures GetStatusColor(status) == Red <==> GetStatusText(status) == CancelledText
  {
  }

  /** The close button's label. */
  datatype CloseLabel = CloseText | KeepTicketActive

  /** The cancel button is offered only for an active ticket. */
  predicate ShowsCancel(status: string) {
    status == "active"
  }

  function CloseButtonLabel(status: string): CloseLabel {
    if status == "cancelled" then CloseText else KeepTicketActive
  }

  /** The buttons of a ticket the flow has just issued, and after it is cancelled: an
      issued ticket can be cancelled and is kept active on close; a cancelled one
      offers no cancel button and a plain close. */
  lemma ButtonsAcrossCancel(t: JoinQueueFlow.Ticket)
    requires JoinQueueFlow.Issued(t)
    ensures ShowsCancel(t.status) && CloseButtonLabel(t.status) == KeepTicketActive
    ensures GetStatusColor(t.status) == Green
    ensures var c := t.(status := "cancelled");
      !ShowsCancel(c.status) && CloseButtonLabel(c.status) == CloseText && GetStatusColor(c.status) == Red
  {
  }

  /** Math.max on integers. */
  function Max(a: int, b: int): int {
    if a >= b then a else b
  }

  class Screen {
    var currentTime: nat
    var position: int
    var estimatedWait: int

    /** What a ticket as issued guarantees: someone at least first in line, and a wait
        of at least five minutes counted in fives. */
    predicate Valid()
      reads this
    {
      position >= 1 && estimatedWait >= 5 && estimatedWait % 5 == 0
    }

    /** The screen starts from the ticket's position and wait; now stands for new Date(). */
    constructor (ticket: JoinQueueFlow.Ticket, now: nat)
      ensures position == ticket.position && estimatedWait == ticket.estimatedWaitTime && currentTime == now
      ensures JoinQueueFlow.Issued(ticket) ==> Valid()
    {
      currentTime := now;
      position := ticket.position;
      estimatedWait := ticket.estimatedWaitTime;
    }

    /** One firing of the minute timer; now is the clock and draw stands for
        Math.random() > 0.7. The queue moves only from a position above 1, and then the
        position drops by one and the wait by five, to no less than five. */
    method Tick(now: nat, draw: bool)
      modifies this
      ensures currentTime == now
      ensures draw && old(position) > 1 ==>
        position == old(position) - 1 && estimatedWait == Max(old(estimatedWait) - 5, 5) && estimatedWait >= 5
      ensures !(draw && old(position) > 1) ==> position == old(position) && estimatedWait == old(estimatedWait)
      ensures estimatedWait != old(estimatedWait) ==> position == old(position) - 1
      ensures old(position) >= 1 ==> position >= 1
      ensures old(Valid()) ==> Valid()
    {
      currentTime := now;
      if draw && position > 1 {
        position := position - 1;
        estimatedWait := Max(estimatedWait - 5, 5);
      }
    }
  }
}
