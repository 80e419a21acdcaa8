/** The dashboard's write workflows: adding a donor, raising an emergency
    request and marking a donation complete (src/components/Dashboard.jsx).
    Adding a donor and raising a request each run in two steps, because the
    shared busy flag is what keeps a second submission out in between: the
    submission (guard, busy flag on, POST issued) and the arrival of the
    POST's answer. */
module Workflows {
  import opened Wrappers
  import opened Records
  import opened Dashboard

  const HospitalNotLinked := "Hospital not linked"
  const AddDonorFailed := "Failed to add donor"
  const CreateRequestFailed := "Failed to create request"
  const CompleteDonationFailed := "Failed to complete donation"

  /** Which of the two guarded forms is submitted. */
  datatype Form = DonorEntry | RequestEntry

  /** The POST a linked session sends for a form: the form's fields plus the
      session's affiliation id. */
  function PostFor(s: DashState, form: Form): (c: Call)
    requires Linked(s.me)
    ensures c.PostDonor? <==> form == DonorEntry
    ensures c.PostRequest? <==> form == RequestEntry
    ensures c.PostDonor? ==> c.donor.form == s.newDonor && s.me.value.hospitalId == Some(c.donor.hospitalId)
    ensures c.PostRequest? ==> c.request.form == s.reqForm && s.me.value.hospitalId == Some(c.request.hospitalId)
  {
    match form
    case DonorEntry => PostDonor(DonorPayload(s.newDonor, AffiliationOf(s.me)))
    case RequestEntry => PostRequest(RequestPayload(s.reqForm, AffiliationOf(s.me)))
  }

  /** Submitting either form. A disabled button fires nothing; a session
      without an affiliation is refused with an alert and no request;
      otherwise the busy flag goes up and exactly one POST is issued. */
  function Submit(s: DashState, form: Form): (st: Step)
    ensures st.calls == [] ==> st.state == s
    ensures st.calls != [] <==> SubmitEnabled(s) && Linked(s.me)
    ensures st.calls != [] ==> Linked(s.me) && st.calls == [PostFor(s, form)] && st.alert.None?
    ensures st.calls != [] ==> !SubmitEnabled(st.state) && st.state.(loading := s.loading) == s
    ensures st.alert.Some? <==> SubmitEnabled(s) && !Linked(s.me)
    ensures st.alert.Some? ==> st.alert.value == HospitalNotLinked
  {
    if !SubmitEnabled(s) then Step(s, [], None)
    else if !Linked(s.me) then Step(s, [], Some(HospitalNotLinked))
    else Step(s.(loading := true), [PostFor(s, form)], None)
  }

  /** While either form is in flight, a second submission of either form
      issues nothing and changes nothing. */
  lemma SecondSubmissionIsInert(s: DashState, first: Form, second: Form)
    requires Submit(s, first).calls != []
    ensures Submit(Submit(s, first).state, second) == Step(Submit(s, first).state, [], None)
  {
  }

  /** The answer to `POST /donors` arrives. On success the form is reset and
      a donor reload is fired (not awaited); on failure the form is kept and
      the fixed message is alerted. Either way the busy flag drops. */
  function FinishAddDonor(s: DashState, postOk: bool): (st: Step)
    ensures !st.state.loading
    ensures st.state.(loading := s.loading, newDonor := s.newDonor) == s
    ensures postOk ==> st.state.newDonor == BlankDonorForm && st.calls == [GetDonors] && st.alert.None?
    ensures !postOk ==> st.state.newDonor == s.newDonor && st.calls == [] && st.alert == Some(AddDonorFailed)
  {
    if postOk then Step(s.(newDonor := BlankDonorForm, loading := false), [GetDonors], None)
    else Step(s.(loading := false), [], Some(AddDonorFailed))
  }

  /** `addDonor` from submission to the donor reload's answer. */
  function AddDonor(s: DashState, postOk: bool, donorsRes: Response<seq<Donor>>): (st: Step)
    // blocked: no request, nothing changes
    ensures !SubmitEnabled(s) ==> st == Step(s, [], None)
    ensures SubmitEnabled(s) && !Linked(s.me) ==> st == Step(s, [], Some(HospitalNotLinked))
    // issued: the POST goes out first and the busy flag ends down
    ensures SubmitEnabled(s) && Linked(s.me) ==>
      && |st.calls| >= 1 && st.calls[0] == PostFor(s, DonorEntry)
      && !st.state.loading
      && SameStoresExcept(s, st.state, {DonorsStore})
      && st.state.tab == s.tab && st.state.reqForm == s.reqForm && st.state.chat == s.chat
    // success: form reset, donors reloaded
    ensures SubmitEnabled(s) && Linked(s.me) && postOk ==>
      && st.calls == [PostFor(s, DonorEntry), GetDonors] && st.alert.None?
      && st.state.newDonor == BlankDonorForm
      && st.state.donors == (if donorsRes.ok then donorsRes.body else s.donors)
      && st.state.(newDonor := s.newDonor, donors := s.donors) == s
    // failure: back to exactly where it started, with the fixed alert
    ensures SubmitEnabled(s) && Linked(s.me) && !postOk ==>
      st == Step(s, [PostFor(s, DonorEntry)], Some(AddDonorFailed))
  {
    var sub := Submit(s, DonorEntry);
    if sub.calls == [] then sub
    else
      var fin := FinishAddDonor(sub.state, postOk);
      var after := if postOk then FetchDonors(fin.state, donorsRes) else fin.state;
      Step(after, sub.calls + fin.calls, fin.alert)
  }

  /** The answer to `POST /requests` arrives. On success the request list
      and then the notifications are reloaded (each awaited) and the view is
      forced to the requests tab; on failure the fixed message is alerted.
      Either way the busy flag drops; the form is never reset. */
  function FinishCreateRequest(s: DashState, postOk: bool,
                               requestsRes: Response<seq<BloodRequest>>,
                               notifsRes: Response<seq<Notification>>): (st: Step)
    ensures !st.state.loading
    ensures st.state.newDonor == s.newDonor && st.state.reqForm == s.reqForm
    ensures st.state.chat == s.chat && st.state.chatInput == s.chatInput
    ensures SameStoresExcept(s, st.state, {RequestsStore, NotifsStore})
    ensures postOk ==>
      && st.calls == [GetRequests, GetNotifications] && st.alert.None?
      && st.state.tab == RequestsTab
      && st.state.requests == (if requestsRes.ok then requestsRes.body else s.requests)
      && st.state.notifs == (if notifsRes.ok then notifsRes.body else s.notifs)
      && st.state.(requests := s.requests, notifs := s.notifs, tab := s.tab, loading := s.loading) == s
    ensures !postOk ==> st == Step(s.(loading := false), [], Some(CreateRequestFailed))
  {
    if !postOk then Step(s.(loading := false), [], Some(CreateRequestFailed))
    else
      var s1 := FetchRequests(s, requestsRes);
      var s2 := FetchNotifs(s1, notifsRes);
      Step(s2.(tab := RequestsTab, loading := false), [GetRequests, GetNotifications], None)
  }

  /** A tab the user clicks while the request is in flight is overridden:
      the forced switch runs after the click. */
  lemma ForcedTabWinsOverClick(s: DashState, t: Tab,
                               requestsRes: Response<seq<BloodRequest>>,
                               notifsRes: Response<seq<Notification>>)
    ensures FinishCreateRequest(ClickTab(s, t), true, requestsRes, notifsRes)
         == FinishCreateRequest(s, true, requestsRes, notifsRes)
  {
  }

  /** `createRequest` from submission to the last reload. */
  function CreateRequest(s: DashState, postOk: bool,
                         requestsRes: Response<seq<BloodRequest>>,
                         notifsRes: Response<seq<Notification>>): (st: Step)
    ensures !SubmitEnabled(s) ==> st == Step(s, [], None)
    ensures SubmitEnabled(s) && !Linked(s.me) ==> st == Step(s, [], Some(HospitalNotLinked))
    ensures SubmitEnabled(s) && Linked(s.me) ==>
      && |st.calls| >= 1 && st.calls[0] == PostFor(s, RequestEntry)
      && !st.state.loading
      && SameStoresExcept(s, st.state, {RequestsStore, NotifsStore})
      && st.state.reqForm == s.reqForm && st.state.newDonor == s.newDonor && st.state.chat == s.chat
    ensures SubmitEnabled(s) && Linked(s.me) && postOk ==>
      && st.calls == [PostFor(s, RequestEntry), GetRequests, GetNotifications] && st.alert.None?
      && st.state.tab == RequestsTab
      && st.state.requests == (if requestsRes.ok then requestsRes.body else s.requests)
      && st.state.notifs == (if notifsRes.ok then notifsRes.body else s.notifs)
      && st.state.(requests := s.requests, notifs := s.notifs, tab := s.tab) == s
    ensures SubmitEnabled(s) && Linked(s.me) && !postOk ==>
      st == Step(s, [PostFor(s, RequestEntry)], Some(CreateRequestFailed))
  {
    var sub := Submit(s, RequestEntry);
    if sub.calls == [] then sub
    else
      var fin := FinishCreateRequest(sub.state, postOk, requestsRes, notifsRes);
      Step(fin.state, sub.calls + fin.calls, fin.alert)
  }

  /** `completeDonation(donor)`: behind a confirmation, POST the completion
      with the donor's own affiliation and the ambient unit count; on
      success reload donors, then inventory, then fetch the donor's
      certificates (kept only if that fetch succeeds) and switch to the
      certificates tab. It never touches the busy flag and rolls nothing
      back. */
  function CompleteDonation(s: DashState, donor: Donor, confirmed: bool, postOk: bool,
                            donorsRes: Response<seq<Donor>>,
                            inventoryRes: Response<Option<Inventory>>,
                            certsRes: Response<seq<Certificate>>): (st: Step)
    ensures st.state.loading == s.loading
    ensures st.state.newDonor == s.newDonor && st.state.reqForm == s.reqForm
    ensures st.state.chat == s.chat && st.state.chatInput == s.chatInput
    ensures SameStoresExcept(s, st.state, {DonorsStore, InventoryStore, CertsStore})
    ensures !confirmed ==> st == Step(s, [], None)
    ensures confirmed ==>
      && |st.calls| >= 1
      && st.calls[0] == PostCompletion(donor.id, donor.hospitalId, s.donationUnits)
    ensures confirmed && !postOk ==> st == Step(s, st.calls, Some(CompleteDonationFailed)) && |st.calls| == 1
    ensures confirmed && postOk ==>
      && st.calls[1..] == [GetDonors, GetInventory, GetCertificates(donor.id)]
      && st.alert.None?
      && st.state.tab == CertsTab
      && st.state.donors == (if donorsRes.ok then donorsRes.body else s.donors)
      && st.state.inventory == (if inventoryRes.ok then inventoryRes.body else s.inventory)
      && st.state.certs == (if certsRes.ok then certsRes.body else s.certs)
      && st.state.(donors := s.donors, inventory := s.inventory, certs := s.certs, tab := s.tab) == s
  {
    if !confirmed then Step(s, [], None)
    else
      var post := PostCompletion(donor.id, donor.hospitalId, s.donationUnits);
      if !postOk then Step(s, [post], Some(CompleteDonationFailed))
      else
        var s1 := FetchDonors(s, donorsRes);
        var s2 := FetchInventory(s1, inventoryRes);
        var s3 := FetchCerts(s2, certsRes);
        Step(s3.(tab := CertsTab), [post, GetDonors, GetInventory, GetCertificates(donor.id)], None)
  }

  /** The completion does not consult the session: it runs, and sends the
      same requests, whether or not the caller is linked to a hospital. */
  lemma CompleteDonationIgnoresSession(s: DashState, me: Option<Me>, donor: Donor,
                                       confirmed: bool, postOk: bool,
                                       donorsRes: Response<seq<Donor>>,
                                       inventoryRes: Response<Option<Inventory>>,
                                       certsRes: Response<seq<Certificate>>)
    ensures CompleteDonation(s.(me := me), donor, confirmed, postOk, donorsRes, inventoryRes, certsRes).calls
         == CompleteDonation(s, donor, confirmed, postOk, donorsRes, inventoryRes, certsRes).calls
    ensures CompleteDonation(s.(me := me), donor, confirmed, postOk, donorsRes, inventoryRes, certsRes).state
         == CompleteDonation(s, donor, confirmed, postOk, donorsRes, inventoryRes, certsRes).state.(me := me)
  {
  }
}
