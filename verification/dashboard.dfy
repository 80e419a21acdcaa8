/** The dashboard's state record, its tab selector, and the five
    resource stores with their fail-soft reload (src/components/Dashboard.jsx).
    Every network exchange is reduced to an abstract response: an `ok`
    flag and the decoded body. */
module Dashboard {
  import opened Wrappers
  import opened Records

  // ---------------------------------------------------------------- tabs

  datatype Tab = DonorsTab | InventoryTab | RequestsTab | NotificationsTab | ChatTab | CertsTab

  /** The tab buttons, in the order they are rendered. */
  const Tabs: seq<Tab> := [DonorsTab, InventoryTab, RequestsTab, NotificationsTab, ChatTab, CertsTab]

  function TabName(t: Tab): string {
    match t
    case DonorsTab => "donors"
    case InventoryTab => "inventory"
    case RequestsTab => "requests"
    case NotificationsTab => "notifications"
    case ChatTab => "chat"
    case CertsTab => "certs"
  }

  /** Reads back the tab a button key stands for. */
  function ParseTab(name: string): (t: Option<Tab>)
    ensures t.Some? ==> TabName(t.value) == name
    ensures t.None? ==> forall u :: TabName(u) != name
  {
    if name == "donors" then Some(DonorsTab)
    else if name == "inventory" then Some(InventoryTab)
    else if name == "requests" then Some(RequestsTab)
    else if name == "notifications" then Some(NotificationsTab)
    else if name == "chat" then Some(ChatTab)
    else if name == "certs" then Some(CertsTab)
    else None
  }

  /** Each tab has one button, and its key reads back to it. */
  lemma TabButtonsComplete(t: Tab)
    ensures t in Tabs
    ensures ParseTab(TabName(t)) == Some(t)
    ensures forall i, j :: 0 <= i < j < |Tabs| ==> TabName(Tabs[i]) != TabName(Tabs[j])
  {
  }

  // --------------------------------------------------------------- state

  datatype ChatRole = UserTurn | AssistantTurn

  /** One transcript entry; an assistant entry's content is absent when
      the reply body had no `reply` field. */
  datatype ChatMsg = ChatMsg(role: ChatRole, content: Option<string>)

  datatype DashState = DashState(
    me: Option<Me>,
    tab: Tab,
    donors: seq<Donor>,
    inventory: Option<Inventory>,
    requests: seq<BloodRequest>,
    notifs: seq<Notification>,
    certs: seq<Certificate>,
    loading: bool,
    newDonor: DonorForm,
    reqForm: RequestForm,
    chatInput: string,
    chat: seq<ChatMsg>,
    donationUnits: int)

  /** The state the component mounts with. */
  function Init(): (s: DashState)
    ensures s.me.None? && s.inventory.None?
    ensures s.donors == [] && s.requests == [] && s.notifs == [] && s.certs == []
    ensures s.tab == DonorsTab && !s.loading
    ensures s.newDonor == BlankDonorForm && s.reqForm == InitialRequestForm
    ensures s.chatInput == "" && s.chat == [] && s.donationUnits == 1
  {
    DashState(None, DonorsTab, [], None, [], [], [], false,
              BlankDonorForm, InitialRequestForm, "", [], 1)
  }

  /** Both forms' submit buttons are `disabled={loading}`: one flag guards both. */
  predicate SubmitEnabled(s: DashState) {
    !s.loading
  }

  /** The user clicks a tab button. */
  function ClickTab(s: DashState, t: Tab): (r: DashState)
    ensures r.tab == t
    ensures SameStores(s, r)
    ensures r.(tab := s.tab) == s
  {
    s.(tab := t)
  }

  // -------------------------------------------------------------- stores

  datatype StoreKind = MeStore | DonorsStore | InventoryStore | RequestsStore | NotifsStore | CertsStore

  /** The contents of one store. */
  datatype Snapshot =
    | MeSnap(me: Option<Me>)
    | DonorsSnap(donors: seq<Donor>)
    | InventorySnap(inventory: Option<Inventory>)
    | RequestsSnap(requests: seq<BloodRequest>)
    | NotifsSnap(notifs: seq<Notification>)
    | CertsSnap(certs: seq<Certificate>)

  function KindOf(snap: Snapshot): StoreKind {
    match snap
    case MeSnap(_) => MeStore
    case DonorsSnap(_) => DonorsStore
    case InventorySnap(_) => InventoryStore
    case RequestsSnap(_) => RequestsStore
    case NotifsSnap(_) => NotifsStore
    case CertsSnap(_) => CertsStore
  }

  /** What store `k` currently holds. */
  function StoreOf(s: DashState, k: StoreKind): (snap: Snapshot)
    ensures KindOf(snap) == k
  {
    match k
    case MeStore => MeSnap(s.me)
    case DonorsStore => DonorsSnap(s.donors)
    case InventoryStore => InventorySnap(s.inventory)
    case RequestsStore => RequestsSnap(s.requests)
    case NotifsStore => NotifsSnap(s.notifs)
    case CertsStore => CertsSnap(s.certs)
  }

  /** Everything that is not a store: tab, busy flag, forms and chat. */
  predicate SameUi(a: DashState, b: DashState) {
    && a.tab == b.tab
    && a.loading == b.loading
    && a.newDonor == b.newDonor
    && a.reqForm == b.reqForm
    && a.chatInput == b.chatInput
    && a.chat == b.chat
    && a.donationUnits == b.donationUnits
  }

  /** Every store outside `ks` holds the same contents in `a` and `b`. */
  predicate SameStoresExcept(a: DashState, b: DashState, ks: set<StoreKind>) {
    forall k :: k !in ks ==> StoreOf(a, k) == StoreOf(b, k)
  }

  predicate SameStores(a: DashState, b: DashState) {
    SameStoresExcept(a, b, {})
  }

  /** A state is its stores plus its UI part. */
  lemma StateIsStoresAndUi(a: DashState, b: DashState)
    requires SameUi(a, b) && SameStores(a, b)
    ensures a == b
  {
    assert StoreOf(a, MeStore) == StoreOf(b, MeStore);
    assert StoreOf(a, DonorsStore) == StoreOf(b, DonorsStore);
    assert StoreOf(a, InventoryStore) == StoreOf(b, InventoryStore);
    assert StoreOf(a, RequestsStore) == StoreOf(b, RequestsStore);
    assert StoreOf(a, NotifsStore) == StoreOf(b, NotifsStore);
    assert StoreOf(a, CertsStore) == StoreOf(b, CertsStore);
  }

  /** A network response as the handlers see it. */
  datatype Response<T> = Response(ok: bool, body: T)

  /** `if (res.ok) setX(await res.json())`: an ok response replaces its
      store wholesale; a failed one leaves the whole state as it was. */
  function Reload(s: DashState, res: Response<Snapshot>): (r: DashState)
    ensures res.ok ==> StoreOf(r, KindOf(res.body)) == res.body
    ensures SameStoresExcept(s, r, {KindOf(res.body)})
    ensures SameUi(s, r)
    ensures !res.ok ==> r == s
  {
    if !res.ok then s
    else
      match res.body
      case MeSnap(m) => s.(me := m)
      case DonorsSnap(d) => s.(donors := d)
      case InventorySnap(i) => s.(inventory := i)
      case RequestsSnap(q) => s.(requests := q)
      case NotifsSnap(n) => s.(notifs := n)
      case CertsSnap(c) => s.(certs := c)
  }

  /** `fetchDonors` and its siblings: the typed faces of `Reload`. */
  function FetchDonors(s: DashState, res: Response<seq<Donor>>): DashState {
    Reload(s, Response(res.ok, DonorsSnap(res.body)))
  }

  function FetchInventory(s: DashState, res: Response<Option<Inventory>>): DashState {
    Reload(s, Response(res.ok, InventorySnap(res.body)))
  }

  function FetchRequests(s: DashState, res: Response<seq<BloodRequest>>): DashState {
    Reload(s, Response(res.ok, RequestsSnap(res.body)))
  }

  function FetchNotifs(s: DashState, res: Response<seq<Notification>>): DashState {
    Reload(s, Response(res.ok, NotifsSnap(res.body)))
  }

  function FetchCerts(s: DashState, res: Response<seq<Certificate>>): DashState {
    Reload(s, Response(res.ok, CertsSnap(res.body)))
  }

  /** Reloading a store twice with the same answer is reloading it once. */
  lemma ReloadIdempotent(s: DashState, res: Response<Snapshot>)
    ensures Reload(Reload(s, res), res) == Reload(s, res)
  {
  }

  /** Loads of different stores commute. */
  lemma ReloadsCommute(s: DashState, a: Response<Snapshot>, b: Response<Snapshot>)
    requires KindOf(a.body) != KindOf(b.body)
    ensures Reload(Reload(s, a), b) == Reload(Reload(s, b), a)
  {
    var x := Reload(Reload(s, a), b);
    var y := Reload(Reload(s, b), a);
    forall k
      ensures StoreOf(x, k) == StoreOf(y, k)
    {
    }
    StateIsStoresAndUi(x, y);
  }

  /** Responses applied in the order they arrive. */
  function ReloadAll(s: DashState, rs: seq<Response<Snapshot>>): DashState {
    if rs == [] then s else Reload(ReloadAll(s, rs[..|rs| - 1]), rs[|rs| - 1])
  }

  /** The body of the last ok response for store `k`, if any. */
  function LastOk(rs: seq<Response<Snapshot>>, k: StoreKind): Option<Snapshot> {
    if rs == [] then None
    else
      var last := rs[|rs| - 1];
      if last.ok && KindOf(last.body) == k then Some(last.body) else LastOk(rs[..|rs| - 1], k)
  }

  /** After any run of loads each store holds the last ok answer it got,
      or what it held before when none succeeded; the UI part is untouched. */
  lemma {:induction false} ReloadAllKeepsLastOk(s: DashState, rs: seq<Response<Snapshot>>)
    ensures SameUi(s, ReloadAll(s, rs))
    ensures forall k :: StoreOf(ReloadAll(s, rs), k) == LastOk(rs, k).GetOr(StoreOf(s, k))
  {
    if rs != [] {
      ReloadAllKeepsLastOk(s, rs[..|rs| - 1]);
    }
  }

  /** At most one response per store. */
  ghost predicate OnePerStore(rs: seq<Response<Snapshot>>) {
    forall i, j :: 0 <= i < j < |rs| ==> KindOf(rs[i].body) != KindOf(rs[j].body)
  }

  /** With one response per store, the last ok answer for `k` is simply the
      ok answer for `k` in the batch. */
  lemma {:induction false} LastOkIsTheOkAnswer(rs: seq<Response<Snapshot>>, k: StoreKind)
    requires OnePerStore(rs)
    ensures forall r :: r in rs && r.ok && KindOf(r.body) == k ==> LastOk(rs, k) == Some(r.body)
    ensures LastOk(rs, k).Some? ==> Response(true, LastOk(rs, k).value) in rs
  {
    if rs != [] {
      var init := rs[..|rs| - 1];
      var last := rs[|rs| - 1];
      assert rs == init + [last];
      LastOkIsTheOkAnswer(init, k);
      forall r | r in rs && r.ok && KindOf(r.body) == k
        ensures LastOk(rs, k) == Some(r.body)
      {
        var i :| 0 <= i < |rs| && rs[i] == r;
        if i < |rs| - 1 {
          assert r in init;
        }
      }
    }
  }

  /** The startup loads are fired without a join, so they may land in any
      order; with one load per store every order yields the same state. */
  lemma ArrivalOrderIrrelevant(s: DashState, rs: seq<Response<Snapshot>>, rs': seq<Response<Snapshot>>)
    requires OnePerStore(rs) && OnePerStore(rs')
    requires multiset(rs) == multiset(rs')
    ensures ReloadAll(s, rs) == ReloadAll(s, rs')
  {
    ReloadAllKeepsLastOk(s, rs);
    ReloadAllKeepsLastOk(s, rs');
    forall k
      ensures LastOk(rs, k) == LastOk(rs', k)
    {
      LastOkIsTheOkAnswer(rs, k);
      LastOkIsTheOkAnswer(rs', k);
      if LastOk(rs, k).Some? {
        assert Response(true, LastOk(rs, k).value) in multiset(rs');
      } else if LastOk(rs', k).Some? {
        assert Response(true, LastOk(rs', k).value) in multiset(rs);
      }
    }
    StateIsStoresAndUi(ReloadAll(s, rs), ReloadAll(s, rs'));
  }

  // ------------------------------------------------------- effects

  /** The payload of `POST /donors`: the form spread plus the affiliation. */
  datatype DonorPayload = DonorPayload(form: DonorForm, hospitalId: string)

  /** The payload of `POST /requests`: the form spread plus the affiliation. */
  datatype RequestPayload = RequestPayload(form: RequestForm, hospitalId: string)

  /** The requests the dashboard issues. */
  datatype Call =
    | GetMe
    | GetDonors
    | GetInventory
    | GetRequests
    | GetNotifications
    | GetCertificates(donorId: string)
    | PostDonor(donor: DonorPayload)
    | PostRequest(request: RequestPayload)
    | PostCompletion(donorId: string, hospitalId: Option<string>, units: int)
    | PostChat(message: string)

  /** One handler's outcome: the new state, the calls it issued in order,
      and the message it alerted, if any. */
  datatype Step = Step(state: DashState, calls: seq<Call>, alert: Option<string>)

  /** The GET that loads store `k` on its own; the certificate store has
      none, since certificates are only fetched for one donor. */
  function LoadCall(k: StoreKind): Option<Call> {
    match k
    case MeStore => Some(GetMe)
    case DonorsStore => Some(GetDonors)
    case InventoryStore => Some(GetInventory)
    case RequestsStore => Some(GetRequests)
    case NotifsStore => Some(GetNotifications)
    case CertsStore => None
  }

  /** Mounting: the initial state, and the mount effect firing one load for
      every store that has one, each exactly once, with no join. */
  function Mount(): (st: Step)
    ensures st.state == Init() && st.alert.None?
    ensures forall k :: LoadCall(k).Some? ==> LoadCall(k).value in st.calls
    ensures forall c :: c in st.calls ==> exists k :: LoadCall(k) == Some(c)
    ensures forall i, j :: 0 <= i < j < |st.calls| ==> st.calls[i] != st.calls[j]
  {
    var calls := [GetMe, GetDonors, GetInventory, GetRequests, GetNotifications];
    assert forall c :: c in calls ==> exists k :: LoadCall(k) == Some(c) by {
      assert LoadCall(MeStore) == Some(GetMe);
      assert LoadCall(DonorsStore) == Some(GetDonors);
      assert LoadCall(InventoryStore) == Some(GetInventory);
      assert LoadCall(RequestsStore) == Some(GetRequests);
      assert LoadCall(NotifsStore) == Some(GetNotifications);
    }
    Step(Init(), calls, None)
  }
}
