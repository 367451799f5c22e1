/** The dashboard's actions: the allergy toggle, the role switch, accepting or
    ignoring a request, and the eligibility card. */
module Dashboard {
  import opened Wrappers
  import opened Seqs
  import opened Types
  import opened Backend
  import opened Eligibility

  datatype RequestAction = Accepted | Ignored

  /** The role switch: a donor becomes a requester, every other role a donor. */
  function SwitchedRole(role: UserRole): (r: UserRole)
    ensures r != role
    ensures r == REQUESTER <==> role == DONOR
    ensures r == DONOR <==> role != DONOR
  {
    if role == DONOR then REQUESTER else DONOR
  }

  /** Switching twice returns a donor or requester to where it started; an
      administrator ends up a requester. */
  lemma SwitchTwice(role: UserRole)
    ensures SwitchedRole(SwitchedRole(role)) == if role == ADMIN then REQUESTER else role
  {
  }

  /** The update the allergy toggle sends: the new flag, and availability forced off
      when the flag goes on, or the user's earlier availability when it goes off. */
  function AllergyPatch(hasAllergies: bool, wasAvailable: Option<bool>): (p: UserPatch)
    ensures p.hasAllergies == Some(Some(hasAllergies))
    ensures hasAllergies ==> p.isAvailable == Some(Some(false))
    ensures !hasAllergies ==> p.isAvailable == Some(wasAvailable)
    ensures p.(hasAllergies := None, isAvailable := None) == EmptyPatch
  {
    EmptyPatch.(hasAllergies := Some(Some(hasAllergies)),
                isAvailable := Some(if hasAllergies then Some(false) else wasAvailable))
  }

  /** A user put on medical hold is stored as unavailable; lifting the hold restores
      the availability the page had for the user; nothing else changes either way. */
  lemma AllergyToggleEffect(u: User, wasAvailable: Option<bool>)
    ensures Merge(u, AllergyPatch(true, wasAvailable)) == u.(hasAllergies := Some(true), isAvailable := Some(false))
    ensures Merge(u, AllergyPatch(false, wasAvailable)) == u.(hasAllergies := Some(false), isAvailable := wasAvailable)
  {
  }

  /** The update the role switch sends: only the role, set to the switched role
      (which always differs from the current one). */
  function RolePatch(role: UserRole): (p: UserPatch)
    ensures p.role == Some(SwitchedRole(role))
    ensures p.(role := None) == EmptyPatch
  {
    EmptyPatch.(role := Some(SwitchedRole(role)))
  }

  /** `requests.find(r => r.id === id)`, as an index. */
  function RequestIndex(requests: seq<BloodRequest>, id: string): int
  {
    FirstIndex(requests, (r: BloodRequest) => r.id == id)
  }

  /** `requests.filter(req => req.id !== id)`: every request with that id goes,
      every other one stays, in order and as often as it was there. */
  function WithoutRequest(requests: seq<BloodRequest>, id: string): (r: seq<BloodRequest>)
    ensures forall q :: q in r <==> q in requests && q.id != id
    ensures forall q :: multiset(r)[q] == if q.id != id then multiset(requests)[q] else 0
    ensures IsSubsequence(r, requests)
  {
    FilterCount(requests, (q: BloodRequest) => q.id != id);
    Filter(requests, (q: BloodRequest) => q.id != id)
  }

  /** The history entry recorded when `userId` accepts `request` at `now`. */
  function DonationDraft(userId: string, request: BloodRequest, now: nat): (d: HistoryDraft)
    ensures d.userId == userId && d.kind == Donation && d.status == "Accepted"
    ensures d.date == DayOf(now) && d.location == request.hospitalName && d.units == request.units
  {
    HistoryDraft(userId, Donation, DayOf(now), request.hospitalName, request.units, "Accepted")
  }

  /** The history after `handleRequestAction(id, action)`: one Donation entry for an
      accepted request that is on the page's list, nothing otherwise. */
  function HistoryAfterAction(history: seq<HistoryItem>, requests: seq<BloodRequest>, userId: string,
                              id: string, action: RequestAction, now: nat): (h: seq<HistoryItem>)
    ensures action == Ignored ==> h == history
    ensures action == Accepted && (forall k :: 0 <= k < |requests| ==> requests[k].id != id) ==> h == history
    ensures action == Accepted && (exists k :: 0 <= k < |requests| && requests[k].id == id) ==>
              |h| == |history| + 1 && h[1..] == history &&
              h[0].kind == Donation && h[0].userId == userId && h[0].status == "Accepted" &&
              h[0].id == now && h[0].date == DayOf(now) &&
              exists k :: 0 <= k < |requests| && requests[k].id == id &&
                          (forall j :: 0 <= j < k ==> requests[j].id != id) &&
                          h[0] == StampHistory(DonationDraft(userId, requests[k], now), now) &&
                          h[0].location == requests[k].hospitalName && h[0].units == requests[k].units
  {
    var i := RequestIndex(requests, id);
    if action == Accepted && i != -1 then [StampHistory(DonationDraft(userId, requests[i], now), now)] + history
    else history
  }

  class DashboardPage {
    /** The signed-in user the page was rendered for. */
    const user: User
    const backend: MockBackendService
    var requests: seq<BloodRequest>
    var loading: bool
    var hasAllergies: bool
    var switching: bool

    constructor (user: User, backend: MockBackendService)
      ensures this.user == user && this.backend == backend
      ensures requests == [] && loading && !switching
      ensures hasAllergies == user.hasAllergies.GetOr(false)
    {
      this.user := user;
      this.backend := backend;
      requests := [];
      loading := true;
      hasAllergies := user.hasAllergies.GetOr(false);
      switching := false;
    }

    /** The mount effect: load the request list. */
    method FetchRequests()
      modifies this`requests, this`loading
      ensures requests == backend.requests && !loading
    {
      requests := backend.GetRequests();
      loading := false;
    }

    /** The eligibility card at clock reading `now`. */
    method CurrentEligibility(now: Millis) returns (e: Eligibility)
      ensures e == CalculateEligibility(hasAllergies, user.lastDonationDate, now)
      ensures hasAllergies ==> !e.isEligible
    {
      e := CalculateEligibility(hasAllergies, user.lastDonationDate, now);
    }

    method HandleAllergyToggle()
      requires backend.Valid()
      modifies this`hasAllergies, backend
      ensures backend.Valid()
      ensures hasAllergies == !old(hasAllergies)
      ensures backend.users == UpdatedUsers(old(backend.users), user.id, AllergyPatch(hasAllergies, user.isAvailable))
      ensures backend.currentUser ==
                SessionAfterUpdate(old(backend.currentUser), old(backend.users), user.id, AllergyPatch(hasAllergies, user.isAvailable))
      ensures backend.storage ==
                if UpdateResult(old(backend.users), user.id, AllergyPatch(hasAllergies, user.isAvailable)).Ok?
                then old(backend.storage).(users := Encoded(backend.users)) else old(backend.storage)
      ensures backend.requests == old(backend.requests) && backend.history == old(backend.history)
    {
      var newState := !hasAllergies;
      hasAllergies := newState;
      var _ := backend.UpdateUserProfile(user.id, AllergyPatch(newState, user.isAvailable));
    }

    method HandleRoleSwitch()
      requires backend.Valid()
      modifies this`switching, backend
      ensures backend.Valid()
      ensures !switching
      ensures backend.users == UpdatedUsers(old(backend.users), user.id, RolePatch(user.role))
      ensures backend.currentUser == SessionAfterUpdate(old(backend.currentUser), old(backend.users), user.id, RolePatch(user.role))
      ensures backend.storage ==
                if UpdateResult(old(backend.users), user.id, RolePatch(user.role)).Ok?
                then old(backend.storage).(users := Encoded(backend.users)) else old(backend.storage)
      ensures backend.requests == old(backend.requests) && backend.history == old(backend.history)
    {
      switching := true;
      var _ := backend.UpdateUserProfile(user.id, RolePatch(user.role));
      switching := false;
    }

    method HandleRequestAction(id: string, action: RequestAction, now: nat)
      requires backend.Valid()
      modifies this`requests, backend
      ensures backend.Valid()
      ensures requests == WithoutRequest(old(requests), id)
      ensures backend.history == HistoryAfterAction(old(backend.history), old(requests), user.id, id, action, now)
      ensures backend.users == old(backend.users) && backend.requests == old(backend.requests)
      ensures backend.currentUser == old(backend.currentUser)
      ensures backend.storage ==
                if action == Accepted && RequestIndex(old(requests), id) != -1
                then old(backend.storage).(history := Encoded(backend.history)) else old(backend.storage)
    {
      if action == Accepted {
        var i := RequestIndex(requests, id);
        if i != -1 {
          var _ := backend.AddHistoryItem(DonationDraft(user.id, requests[i], now), now);
        }
      }
      requests := Filter(requests, (q: BloodRequest) => q.id != id);
    }
  }
}
