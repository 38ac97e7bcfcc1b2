/** The full-screen flow opened from the home page: sign in or register, the one-time
    password, then the bank services (login) or the application form (account opening). */
module OpenAccountFlow {
  import opened Js
  import opened Forms

  datatype FlowType = AccountOpening | Login

  /** What renderStep puts on screen. */
  datatype Screen =
    | SignInRegisterCard
    | OtpScreen(identifierHint: Option<string>)
    | BankServicesPage
    | ApplicationForm
    | SomethingWentWrong

  /** The header title; NoTitle is the empty string. */
  datatype Title = SignInRegisterTitle | VerifyYourIdentity | BankServices | AccountOpeningTitle | NoTitle

  /** renderStep: sign-in at 0, the code at 1 (hinted with the stored identifier), and
      at 2 the services page or the application form by flow type; every other step
      shows the error screen. */
  function RenderStep(step: int, flowType: FlowType, authIdentifier: Option<string>): (s: Screen)
    ensures s.SomethingWentWrong? <==> step !in {0, 1, 2}
    ensures s.ApplicationForm? <==> step == 2 && flowType.AccountOpening?
    ensures s.BankServicesPage? <==> step == 2 && flowType == Login
    ensures s.OtpScreen? ==> s.identifierHint == authIdentifier
  {
    if step == 0 then SignInRegisterCard
    else if step == 1 then OtpScreen(authIdentifier)
    else if step == 2 then (if flowType == Login then BankServicesPage else ApplicationForm)
    else SomethingWentWrong
  }

  /** getHeaderTitle: a title for each of the three steps, "" for any other. */
  function HeaderTitle(step: int, flowType: FlowType): (t: Title)
    ensures t == NoTitle <==> step !in {0, 1, 2}
    ensures t == AccountOpeningTitle <==> RenderStep(step, flowType, None).ApplicationForm?
    ensures t == BankServices <==> RenderStep(step, flowType, None).BankServicesPage?
  {
    if step == 0 then SignInRegisterTitle
    else if step == 1 then VerifyYourIdentity
    else if step == 2 then (if flowType == Login then BankServices else AccountOpeningTitle)
    else NoTitle
  }

  /** The callbacks the flow hands to its header and to the screen it renders.
      AuthScheduled is the card's accepted login or registration, which arms a
      500 ms timer; AuthSuccess is that timer firing onAuthSuccess. */
  datatype Event =
    | AuthScheduled(identifier: string)
    | AuthSuccess
    | OtpVerified
    | FormSubmitted(data: FieldMap)
    | Back
    | Close

  class Flow {
    const flowType: FlowType
    var step: int
    var authIdentifier: Option<string>
    var formData: FieldMap
    /** Whether onClose has been called. */
    var closed: bool
    /** The identifiers of the accepted logins and registrations whose delayed
        onAuthSuccess has not fired yet, oldest first. */
    var pendingAuth: seq<string>

    /** The steps the flow renders a screen of its own for. */
    predicate InRange()
      reads this
    {
      0 <= step <= 2
    }

    /** At most one delayed onAuthSuccess is outstanding, and only while the card is on
        screen: what a single submission of the card leads to. */
    predicate SingleSubmission()
      reads this
    {
      |pendingAuth| <= 1 && (pendingAuth != [] ==> step == 0)
    }

    predicate Valid()
      reads this
    {
      InRange() && SingleSubmission()
    }

    constructor (flowType: FlowType)
      ensures this.flowType == flowType
      ensures step == 0 && authIdentifier == None && formData == map[] && !closed && pendingAuth == []
      ensures Valid()
    {
      this.flowType := flowType;
      step := 0;
      authIdentifier := None;
      formData := map[];
      closed := false;
      pendingAuth := [];
    }

    method HandleNext()
      modifies this
      ensures step == old(step) + 1
      ensures authIdentifier == old(authIdentifier) && formData == old(formData) && closed == old(closed)
      ensures pendingAuth == old(pendingAuth)
    {
      step := step + 1;
    }

    /** handleBack: one step back, with no lower bound of its own. */
    method HandleBack()
      modifies this
      ensures step == old(step) - 1
      ensures authIdentifier == old(authIdentifier) && formData == old(formData) && closed == old(closed)
      ensures pendingAuth == old(pendingAuth)
    {
      step := step - 1;
    }

    /** handleAuthSuccess: keep the identifier for the code screen's hint, then go on,
        from whatever step the flow is at when it is called. */
    method HandleAuthSuccess(identifier: string)
      modifies this
      ensures authIdentifier == Some(identifier) && step == old(step) + 1
      ensures formData == old(formData) && closed == old(closed) && pendingAuth == old(pendingAuth)
    {
      authIdentifier := Some(identifier);
      HandleNext();
    }

    /** handleOtpVerifySuccess: both flow types go to step 2. */
    method HandleOtpVerifySuccess()
      modifies this
      ensures step == 2
      ensures authIdentifier == old(authIdentifier) && formData == old(formData) && closed == old(closed)
      ensures pendingAuth == old(pendingAuth)
    {
      if flowType == Login {
        step := 2;
      } else {
        step := 2;
      }
    }

    /** handleFormSubmit: the submitted entries are merged over the stored ones, the
        submitted value winning on a shared key, and the flow is closed. */
    method HandleFormSubmit(data: FieldMap)
      modifies this
      ensures forall k | k in data :: k in formData && formData[k] == data[k]
      ensures forall k | k !in data :: Lookup(formData, k) == Lookup(old(formData), k)
      ensures formData.Keys == old(formData).Keys + data.Keys
      ensures closed
      ensures step == old(step) && authIdentifier == old(authIdentifier) && pendingAuth == old(pendingAuth)
    {
      formData := formData + data;
      closed := true;
    }

    method HandleClose()
      modifies this
      ensures closed
      ensures step == old(step) && authIdentifier == old(authIdentifier) && formData == old(formData)
      ensures pendingAuth == old(pendingAuth)
    {
      closed := true;
    }

    /** Whether the header, the screen on display or a running timer offers the event:
        the card accepts a login or registration at step 0, and a timer it armed fires
        at whatever step the flow has reached by then; the code screen reports a
        verification at step 1, the application form a submission or its back button
        at step 2 of account opening; the header's back button is shown at step 1 only,
        its close button always. */
    predicate Offers(ev: Event)
      reads this
    {
      match ev
      case AuthScheduled(_) => RenderStep(step, flowType, authIdentifier).SignInRegisterCard?
      case AuthSuccess => pendingAuth != []
      case OtpVerified => RenderStep(step, flowType, authIdentifier).OtpScreen?
      case FormSubmitted(_) => RenderStep(step, flowType, authIdentifier).ApplicationForm?
      case Back => step == 1 || RenderStep(step, flowType, authIdentifier).ApplicationForm?
      case Close => true
    }

    /** An event the flow offers, handled by its callback. As long as the card is not
        submitted again while its timer runs, the step never leaves 0..2 and step 2 is
        entered only on a verified code. */
    method Handle(ev: Event)
      requires Offers(ev)
      modifies this
      ensures old(Valid()) && !(ev.AuthScheduled? && old(pendingAuth) != []) ==> Valid()
      ensures old(Valid()) && step == 2 && old(step) != 2 ==> ev.OtpVerified?
      ensures old(step) >= 0 ==> step >= 0
      ensures ev.AuthScheduled? ==> pendingAuth == old(pendingAuth) + [ev.identifier] && step == old(step)
      ensures ev.AuthScheduled? || ev.OtpVerified? || ev.Back? || ev.FormSubmitted? || ev.Close? ==>
        authIdentifier == old(authIdentifier)
      ensures ev.AuthSuccess? ==>
        && authIdentifier == Some(old(pendingAuth)[0]) && pendingAuth == old(pendingAuth)[1..]
        && step == old(step) + 1
      ensures !ev.AuthScheduled? && !ev.AuthSuccess? ==> pendingAuth == old(pendingAuth)
      ensures ev.OtpVerified? ==> step == 2
      ensures ev.Back? ==> step == old(step) - 1
      ensures ev.FormSubmitted? || ev.Close? ==> step == old(step)
      ensures closed == (old(closed) || ev.FormSubmitted? || ev.Close?)
      ensures ev.FormSubmitted? ==> formData == old(formData) + ev.data
      ensures !ev.FormSubmitted? ==> formData == old(formData)
    {
      match ev {
        case AuthScheduled(identifier) =>
          pendingAuth := pendingAuth + [identifier];
        case AuthSuccess =>
          var identifier := pendingAuth[0];
          pendingAuth := pendingAuth[1..];
          HandleAuthSuccess(identifier);
        case OtpVerified => HandleOtpVerifySuccess();
        case FormSubmitted(data) => HandleFormSubmit(data);
        case Back => HandleBack();
        case Close => HandleClose();
      }
    }
  }

  /** Submitting the card once: when its timer fires, the code screen is shown, hinted
      with the identifier handed on. */
  method OneSubmission(flowType: FlowType, identifier: string) returns (screen: Screen)
    ensures screen == OtpScreen(Some(identifier))
  {
    var flow := new Flow(flowType);
    flow.Handle(AuthScheduled(identifier));
    flow.Handle(AuthSuccess);
    screen := RenderStep(flow.step, flowType, flow.authIdentifier);
  }

  /** Submitting the card three times within its 500 ms delay: when the first two
      timers have fired, the flow shows step 2, the bank services or the application
      form, with no code ever verified; the third takes it to the error screen. */
  method RepeatedSubmission(flowType: FlowType, identifier: string) returns (afterTwo: Screen, afterThree: Screen)
    ensures afterTwo == if flowType == Login then BankServicesPage else ApplicationForm
    ensures afterThree == SomethingWentWrong
  {
    var flow := new Flow(flowType);
    flow.Handle(AuthScheduled(identifier));
    flow.Handle(AuthScheduled(identifier));
    flow.Handle(AuthScheduled(identifier));
    flow.Handle(AuthSuccess);
    flow.Handle(AuthSuccess);
    afterTwo := RenderStep(flow.step, flowType, flow.authIdentifier);
    flow.Handle(AuthSuccess);
    afterThree := RenderStep(flow.step, flowType, flow.authIdentifier);
  }
}
