/** A dashboard session as a sequence of events, each handled in turn from
    the mounted state. Answers that the dashboard awaits inside one handler
    travel inside that handler's event; answers nobody awaits (the startup
    loads, the donor reload after a save, a chat reply) are events of their
    own, so they may arrive in any order relative to everything else. */
module Session {
  import opened Wrappers
  import opened Records
  import opened Dashboard
  import opened Workflows
  import opened ChatRelay

  datatype Event =
    | Loaded(res: Response<Snapshot>)
    | TabClicked(tab: Tab)
    | Submitted(form: Form)
    | DonorAnswered(ok: bool)
    | RequestAnswered(ok: bool, requests: Response<seq<BloodRequest>>, notifs: Response<seq<Notification>>)
    | DonationMarked(donor: Donor, confirmed: bool, postOk: bool,
                     donors: Response<seq<Donor>>,
                     inventory: Response<Option<Inventory>>,
                     certs: Response<seq<Certificate>>)
    | ChatSubmitted
    | ChatReplied(reply: Option<string>)

  function Next(s: DashState, e: Event): Step {
    match e
    case Loaded(res) => Step(Reload(s, res), [], None)
    case TabClicked(t) => Step(ClickTab(s, t), [], None)
    case Submitted(form) => Submit(s, form)
    case DonorAnswered(ok) => FinishAddDonor(s, ok)
    case RequestAnswered(ok, q, n) => FinishCreateRequest(s, ok, q, n)
    case DonationMarked(d, c, ok, dr, ir, cr) => CompleteDonation(s, d, c, ok, dr, ir, cr)
    case ChatSubmitted => SubmitChat(s)
    case ChatReplied(reply) => Step(ReceiveReply(s, reply), [], None)
  }

  /** The state after handling `es` in order. */
  function Run(s: DashState, es: seq<Event>): DashState {
    if es == [] then s else Next(Run(s, es[..|es| - 1]), es[|es| - 1]).state
  }

  /** Every request issued while handling `es`, in order. */
  function RunCalls(s: DashState, es: seq<Event>): seq<Call> {
    if es == [] then [] else RunCalls(s, es[..|es| - 1]) + Next(Run(s, es[..|es| - 1]), es[|es| - 1]).calls
  }

  /** One event never writes the unit count and never rewrites the transcript. */
  lemma NextKeepsUnitsAndChat(s: DashState, e: Event)
    ensures Next(s, e).state.donationUnits == s.donationUnits
    ensures |s.chat| <= |Next(s, e).state.chat|
    ensures Next(s, e).state.chat[..|s.chat|] == s.chat
  {
    match e
    case Loaded(_) =>
    case TabClicked(_) =>
    case Submitted(_) =>
    case DonorAnswered(_) =>
    case RequestAnswered(_, _, _) =>
    case DonationMarked(_, _, _, _, _, _) =>
    case ChatSubmitted =>
    case ChatReplied(_) =>
  }

  /** What requests carry: a completion reports `units`, and a donor or
      request POST a non-empty affiliation. */
  predicate CallsCarry(calls: seq<Call>, units: int) {
    forall c :: c in calls ==>
      && (c.PostCompletion? ==> c.units == units)
      && (c.PostDonor? ==> c.donor.hospitalId != "")
      && (c.PostRequest? ==> c.request.hospitalId != "")
  }

  lemma SubmitCallsCarry(s: DashState, f: Form)
    ensures CallsCarry(Submit(s, f).calls, s.donationUnits)
  {
    var st := Submit(s, f);
    if st.calls != [] {
      assert st.calls == [PostFor(s, f)];
    }
  }

  lemma CompletionCallsCarry(s: DashState, d: Donor, confirmed: bool, ok: bool,
                             dr: Response<seq<Donor>>, ir: Response<Option<Inventory>>,
                             cr: Response<seq<Certificate>>)
    ensures CallsCarry(CompleteDonation(s, d, confirmed, ok, dr, ir, cr).calls, s.donationUnits)
  {
    var calls := CompleteDonation(s, d, confirmed, ok, dr, ir, cr).calls;
    if calls != [] {
      assert calls == [PostCompletion(d.id, d.hospitalId, s.donationUnits)] + calls[1..];
    }
  }

  /** One event's requests carry the state's unit count and its affiliation. */
  lemma NextCallsCarry(s: DashState, e: Event)
    ensures CallsCarry(Next(s, e).calls, s.donationUnits)
  {
    match e
    case Submitted(f) =>
      SubmitCallsCarry(s, f);
    case DonationMarked(d, confirmed, ok, dr, ir, cr) =>
      CompletionCallsCarry(s, d, confirmed, ok, dr, ir, cr);
    case DonorAnswered(ok) =>
      assert FinishAddDonor(s, ok).calls == (if ok then [GetDonors] else []);
    case RequestAnswered(ok, q, n) =>
      assert FinishCreateRequest(s, ok, q, n).calls == (if ok then [GetRequests, GetNotifications] else []);
    case ChatSubmitted =>
      assert SubmitChat(s).calls == [] || SubmitChat(s).calls == [PostChat(s.chatInput)];
    case Loaded(_) =>
    case TabClicked(_) =>
    case ChatReplied(_) =>
  }

  lemma CallsCarryAppend(a: seq<Call>, b: seq<Call>, units: int)
    requires CallsCarry(a, units) && CallsCarry(b, units)
    ensures CallsCarry(a + b, units)
  {
  }

  /** Nothing ever writes the donation unit count. */
  lemma {:induction false} RunKeepsDonationUnits(s: DashState, es: seq<Event>)
    ensures Run(s, es).donationUnits == s.donationUnits
  {
    if es != [] {
      RunKeepsDonationUnits(s, es[..|es| - 1]);
      NextKeepsUnitsAndChat(Run(s, es[..|es| - 1]), es[|es| - 1]);
    }
  }

  /** The transcript only grows: no event alters or removes an entry. */
  lemma {:induction false} RunOnlyExtendsChat(s: DashState, es: seq<Event>)
    ensures |s.chat| <= |Run(s, es).chat|
    ensures Run(s, es).chat[..|s.chat|] == s.chat
  {
    if es != [] {
      RunOnlyExtendsChat(s, es[..|es| - 1]);
      var before := Run(s, es[..|es| - 1]);
      NextKeepsUnitsAndChat(before, es[|es| - 1]);
      var after := Run(s, es);
      assert after.chat[..|s.chat|] == after.chat[..|before.chat|][..|s.chat|];
    }
  }

  /** Every completion sent in a session started from the mounted state
      reports one unit, whichever donor it is for. */
  lemma {:induction false} CompletionsReportOneUnit(es: seq<Event>)
    ensures forall c :: c in RunCalls(Init(), es) && c.PostCompletion? ==> c.units == 1
  {
    RunCallsCarry(Init(), es);
  }

  /** Every donor or request POST sent in any session carries a non-empty
      affiliation id taken from the session. */
  lemma PostsCarryAffiliation(s: DashState, es: seq<Event>)
    ensures forall c :: c in RunCalls(s, es) && c.PostDonor? ==> c.donor.hospitalId != ""
    ensures forall c :: c in RunCalls(s, es) && c.PostRequest? ==> c.request.hospitalId != ""
  {
    RunCallsCarry(s, es);
  }

  /** Every request of a session carries the unit count it started with. */
  lemma {:induction false} RunCallsCarry(s: DashState, es: seq<Event>)
    ensures CallsCarry(RunCalls(s, es), s.donationUnits)
  {
    if es != [] {
      var prefix := es[..|es| - 1];
      RunCallsCarry(s, prefix);
      RunKeepsDonationUnits(s, prefix);
      NextCallsCarry(Run(s, prefix), es[|es| - 1]);
      CallsCarryAppend(RunCalls(s, prefix), Next(Run(s, prefix), es[|es| - 1]).calls, s.donationUnits);
    }
  }
}
