/** The three-step queue flow: choose a branch, choose a service (which issues a
    ticket), then follow the ticket. */
module JoinQueueFlow {
  import opened Js

  /** The parts of a branch and of a service the flow carries along. */
  datatype Branch = Branch(id: string, name: string, currentQueue: int)
  datatype Service = Service(id: string, name: string, estimatedTime: int)

  /** A queue ticket; issuedAt is the clock reading, in milliseconds, when it was made. */
  datatype Ticket = Ticket(
    ticketNumber: string,
    branch: Branch,
    service: Service,
    position: int,
    estimatedWaitTime: int,
    issuedAt: nat,
    status: string)

  /** A ticket as the flow issues it: active, with a position from 1 to 15 and a wait
      that is a multiple of 5 from 5 to 75. */
  predicate Issued(t: Ticket) {
    && t.status == "active"
    && 1 <= t.position <= 15
    && 5 <= t.estimatedWaitTime <= 75 && t.estimatedWaitTime % 5 == 0
  }

  /** The ticket of handleServiceSelect. The clock reading now stands for Date.now(),
      and p and w for the two draws Math.floor(Math.random() * 15). */
  function MakeTicket(branch: Branch, service: Service, now: nat, p: nat, w: nat): (t: Ticket)
    requires p < 15 && w < 15
    ensures Issued(t)
    ensures t.branch == branch && t.service == service && t.issuedAt == now
  {
    Ticket("MB" + SliceLast(NatToString(now), 6), branch, service, p + 1, (w + 1) * 5, now, "active")
  }

  /** Every position and wait the ticket may show can be drawn. */
  lemma EveryDrawIssued(branch: Branch, service: Service, now: nat, position: int, wait: int)
    requires 1 <= position <= 15 && 5 <= wait <= 75 && wait % 5 == 0
    ensures exists p: nat, w: nat | p < 15 && w < 15 ::
      MakeTicket(branch, service, now, p, w).position == position
      && MakeTicket(branch, service, now, p, w).estimatedWaitTime == wait
  {
    var p: nat, w: nat := position - 1, wait / 5 - 1;
    assert MakeTicket(branch, service, now, p, w).estimatedWaitTime == wait;
  }

  /** Once the clock reads at least 100000 ms, the ticket number is "MB" and the last
      six decimal digits of the clock. */
  lemma TicketNumber(branch: Branch, service: Service, now: nat, p: nat, w: nat)
    requires p < 15 && w < 15 && now >= 100000
    ensures var n := MakeTicket(branch, service, now, p, w).ticketNumber;
      && |n| == 8 && n[..2] == "MB"
      && n[2..] == NatToString(now)[|NatToString(now)| - 6..]
      && forall i | 2 <= i < 8 :: IsDigit(n[i])
  {
    assert Pow10(5) == 100000;
    NatToStringLength(now, 5);
  }

  datatype Screen = BranchSelection | ServiceSelection(branch: Option<Branch>) | QueueTicket(ticket: Option<Ticket>) | Nothing

  datatype Title = SelectBranch | SelectService | YourQueueTicket | JoinQueue

  /** getHeaderTitle: one title per step, the flow's own name otherwise. */
  function HeaderTitle(step: int): (t: Title)
    ensures t == SelectBranch <==> step == 0
    ensures t == SelectService <==> step == 1
    ensures t == YourQueueTicket <==> step == 2
    ensures t == JoinQueue <==> step !in {0, 1, 2}
  {
    if step == 0 then SelectBranch else if step == 1 then SelectService else if step == 2 then YourQueueTicket else JoinQueue
  }

  /** What the header and the screen on display let the user do. */
  datatype Event =
    | SelectBranchEvent(branch: Branch)
    | SelectServiceEvent(service: Service, now: nat, p: nat, w: nat)
    | Back
    | Cancel
    | Close

  class Flow {
    var currentStep: int
    var selectedBranch: Option<Branch>
    var selectedService: Option<Service>
    var queueTicket: Option<Ticket>
    /** Whether onClose has been called. */
    var closed: bool

    /** The step is one of the three, a branch is chosen from step 1 on and a ticket
        exists at step 2. */
    predicate Valid()
      reads this
    {
      && 0 <= currentStep <= 2
      && (currentStep >= 1 ==> selectedBranch.Some?)
      && (currentStep == 2 ==> queueTicket.Some?)
    }

    constructor ()
      ensures currentStep == 0 && selectedBranch == None && selectedService == None && queueTicket == None
      ensures !closed && Valid()
    {
      currentStep := 0;
      selectedBranch, selectedService, queueTicket := None, None, None;
      closed := false;
    }

    /** renderStep. */
    function RenderStep(): (s: Screen)
      reads this
      ensures s.Nothing? <==> currentStep !in {0, 1, 2}
      ensures s.ServiceSelection? ==> s.branch == selectedBranch
      ensures s.QueueTicket? ==> s.ticket == queueTicket
    {
      if currentStep == 0 then BranchSelection
      else if currentStep == 1 then ServiceSelection(selectedBranch)
      else if currentStep == 2 then QueueTicket(queueTicket)
      else Nothing
    }

    /** The header's back button: shown at step 1 only. */
    predicate ShowsBackButton()
      reads this
    {
      0 < currentStep < 2
    }

    /** The progress bar: shown before the ticket step. */
    predicate ShowsProgressBar()
      reads this
    {
      currentStep < 2
    }

    method HandleNext()
      modifies this
      ensures currentStep == old(currentStep) + 1
      ensures selectedBranch == old(selectedBranch) && selectedService == old(selectedService)
      ensures queueTicket == old(queueTicket) && closed == old(closed)
    {
      currentStep := currentStep + 1;
    }

    method HandleBack()
      modifies this
      ensures currentStep == old(currentStep) - 1
      ensures selectedBranch == old(selectedBranch) && selectedService == old(selectedService)
      ensures queueTicket == old(queueTicket) && closed == old(closed)
    {
      currentStep := currentStep - 1;
    }

    method HandleBranchSelect(branch: Branch)
      modifies this
      ensures selectedBranch == Some(branch) && currentStep == old(currentStep) + 1
      ensures selectedService == old(selectedService) && queueTicket == old(queueTicket) && closed == old(closed)
    {
      selectedBranch := Some(branch);
      HandleNext();
    }

    /** handleServiceSelect: issue a ticket for the chosen branch and this service and go on. */
    method HandleServiceSelect(service: Service, now: nat, p: nat, w: nat)
      requires selectedBranch.Some? && p < 15 && w < 15
      modifies this
      ensures selectedBranch == old(selectedBranch) && closed == old(closed)
      ensures selectedService == Some(service) && currentStep == old(currentStep) + 1
      ensures queueTicket == Some(MakeTicket(selectedBranch.value, service, now, p, w))
      ensures Issued(queueTicket.value) && queueTicket.value.branch == selectedBranch.value
    {
      selectedService := Some(service);
      queueTicket := Some(MakeTicket(selectedBranch.value, service, now, p, w));
      HandleNext();
    }

    /** handleCancelTicket: the ticket is marked cancelled and otherwise kept; without a
        ticket nothing happens. */
    method HandleCancelTicket()
      modifies this
      ensures old(queueTicket).None? ==> queueTicket == None
      ensures old(queueTicket).Some? ==> queueTicket == Some(old(queueTicket).value.(status := "cancelled"))
      ensures currentStep == old(currentStep) && selectedBranch == old(selectedBranch)
      ensures selectedService == old(selectedService) && closed == old(closed)
    {
      if queueTicket.Some? {
        queueTicket := Some(queueTicket.value.(status := "cancelled"));
      }
    }

    method HandleClose()
      modifies this
      ensures closed
      ensures currentStep == old(currentStep) && selectedBranch == old(selectedBranch)
      ensures selectedService == old(selectedService) && queueTicket == old(queueTicket)
    {
      closed := true;
    }

    /** Whether the event is on offer: the branch list at step 0, the service list at
        step 1, the header's back button where it is shown, the ticket's cancel button
        while the ticket is active, and a close button always. */
    predicate Offers(ev: Event)
      reads this
    {
      match ev
      case SelectBranchEvent(_) => RenderStep().BranchSelection?
      case SelectServiceEvent(_, _, p, w) => RenderStep().ServiceSelection? && p < 15 && w < 15
      case Back => ShowsBackButton()
      case Cancel => RenderStep().QueueTicket? && queueTicket.Some? && queueTicket.value.status == "active"
      case Close => true
    }

    /** An event on offer, handled by its callback: the flow stays within its three
        steps, every screen has the data it dereferences, and the progress bar is
        shown exactly on the first two steps. */
    method Handle(ev: Event)
      requires Valid() && Offers(ev)
      modifies this
      ensures Valid()
      ensures ShowsProgressBar() <==> currentStep != 2
      ensures ev.SelectServiceEvent? ==> currentStep == 2 && Issued(queueTicket.value)
      ensures ev.Cancel? ==> currentStep == 2 && queueTicket.value.status == "cancelled"
    {
      match ev {
        case SelectBranchEvent(branch) => HandleBranchSelect(branch);
        case SelectServiceEvent(service, now, p, w) => HandleServiceSelect(service, now, p, w);
        case Back => HandleBack();
        case Cancel => HandleCancelTicket();
        case Close => HandleClose();
      }
    }
  }
}
