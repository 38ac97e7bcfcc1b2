/** The home page: which flow, if any, is open over it. */
module BankHomePage {
  import opened Js
  import OpenAccountFlow

  datatype ActiveFlow = NoFlow | AccountOpeningFlow | LoginFlow

  /** The buttons of the page; the last two have no click handler. */
  datatype Button = OpenAccount | LogInAccount | JoinQueue | DigitalDocuments

  /** The overlay: a flow of the active type, rendered exactly when one is active. */
  function Overlay(activeFlow: ActiveFlow): (r: Option<OpenAccountFlow.FlowType>)
    ensures r.None? <==> activeFlow == NoFlow
    ensures r == Some(OpenAccountFlow.Login) <==> activeFlow == LoginFlow
    ensures r == Some(OpenAccountFlow.AccountOpening) <==> activeFlow == AccountOpeningFlow
  {
    match activeFlow
    case NoFlow => None
    case AccountOpeningFlow => Some(OpenAccountFlow.AccountOpening)
    case LoginFlow => Some(OpenAccountFlow.Login)
  }

  class Page {
    var activeFlow: ActiveFlow

    constructor ()
      ensures activeFlow == NoFlow
    {
      activeFlow := NoFlow;
    }

    /** A click on one of the page's buttons. */
    method Click(b: Button)
      modifies this
      ensures b == OpenAccount ==> activeFlow == AccountOpeningFlow
      ensures b == LogInAccount ==> activeFlow == LoginFlow
      ensures b == JoinQueue || b == DigitalDocuments ==> activeFlow == old(activeFlow)
    {
      match b {
        case OpenAccount => activeFlow := AccountOpeningFlow;
        case LogInAccount => activeFlow := LoginFlow;
        case JoinQueue =>
        case DigitalDocuments =>
      }
    }

    /** handleCloseFlow, the flow's onClose. */
    method HandleCloseFlow()
      modifies this
      ensures activeFlow == NoFlow && Overlay(activeFlow).None?
    {
      activeFlow := NoFlow;
    }
  }
}
