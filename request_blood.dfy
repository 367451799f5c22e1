/** The request form: posting a blood request records it and a matching history
    entry; the assistant button needs a hospital name first. */
module RequestBlood {
  import opened Wrappers
  import opened Text
  import opened Types
  import opened Backend

  /** The draft `handleSubmit` sends, for the session user `current` (if any): the
      form's fields at "Current Location", naming the session user, with "temp" and
      "Unknown" standing in for a missing (or empty) id and name. */
  function SubmittedRequest(current: Option<User>, bloodGroup: BloodGroup, units: int, hospital: string,
                            urgency: RequestUrgency, description: string): (d: RequestDraft)
    ensures d.bloodGroup == bloodGroup && d.units == units && d.hospitalName == hospital
    ensures d.urgency == urgency && d.description == description && d.location == "Current Location"
    ensures d.requesterId != "" && d.requesterName != ""
    ensures current.None? ==> d.requesterId == "temp" && d.requesterName == "Unknown"
    ensures current.Some? && current.value.id != "" ==> d.requesterId == current.value.id
    ensures current.Some? && current.value.name != "" ==> d.requesterName == current.value.name
    ensures current.Some? && current.value.id == "" ==> d.requesterId == "temp"
    ensures current.Some? && current.value.name == "" ==> d.requesterName == "Unknown"
  {
    RequestDraft(OrElse(if current.Some? then current.value.id else "", "temp"),
                 OrElse(if current.Some? then current.value.name else "", "Unknown"),
                 bloodGroup, units, hospital, "Current Location", urgency, description)
  }

  /** The history entry `handleSubmit` adds after the request: an open Request
      event of the session user (or of nobody, ""), dated on the day of `now`. */
  function SubmittedHistory(current: Option<User>, hospital: string, units: int, now: nat): (d: HistoryDraft)
    ensures d.kind == Request && d.status == "Open" && d.date == DayOf(now)
    ensures d.location == hospital && d.units == units
    ensures d.userId == if current.Some? then current.value.id else ""
  {
    HistoryDraft(if current.Some? then current.value.id else "", Request, DayOf(now), hospital, units, "Open")
  }

  /** The request and the history entry agree: same hospital and units, the entry is
      an open Request event dated on the request's day, and both name the session
      user, or the placeholders "temp"/"Unknown" (request) and "" (entry) without one. */
  lemma SubmissionRecordsAgree(current: Option<User>, bloodGroup: BloodGroup, units: int, hospital: string,
                               urgency: RequestUrgency, description: string, now: nat)
    ensures var r := StampRequest(SubmittedRequest(current, bloodGroup, units, hospital, urgency, description), now);
            var h := StampHistory(SubmittedHistory(current, hospital, units, now), now);
            && r.status == OPEN && r.location == "Current Location"
            && r.bloodGroup == bloodGroup && r.urgency == urgency && r.description == description
            && h.location == r.hospitalName == hospital && h.units == r.units == units
            && h.kind == Request && h.status == "Open" && h.date == DayOf(r.createdAt)
            && (current.None? ==> r.requesterId == "temp" && r.requesterName == "Unknown" && h.userId == "")
            && (current.Some? && current.value.id != "" ==> r.requesterId == h.userId == current.value.id)
  {
  }

  class RequestBloodPage {
    const backend: MockBackendService
    var loading: bool
    var generatingAI: bool
    var hospital: string
    var units: int
    var bloodGroup: BloodGroup
    var urgency: RequestUrgency
    var description: string

    constructor (backend: MockBackendService)
      ensures this.backend == backend && !loading && !generatingAI
      ensures hospital == "" && units == 1 && bloodGroup == A_POS && urgency == Normal && description == ""
    {
      this.backend := backend;
      loading, generatingAI := false, false;
      hospital, units, bloodGroup, urgency, description := "", 1, A_POS, Normal, "";
    }

    /** `handleAIHelp`, given the text the assistant composes (its own fallback
        message when the assistant fails). Without a hospital name the page only
        alerts. */
    method HandleAIHelp(composed: string) returns (alerted: bool)
      modifies this`description, this`generatingAI
      ensures alerted <==> hospital == ""
      ensures description == if alerted then old(description) else composed
      ensures generatingAI == if alerted then old(generatingAI) else false
    {
      if hospital == "" {
        return true;
      }
      generatingAI := true;
      description := composed;
      generatingAI := false;
      return false;
    }

    /** `handleSubmit` at clock reading `now`: creates the request, then adds the
        history entry, then navigates to the dashboard. */
    method HandleSubmit(now: nat) returns (navigated: bool)
      requires backend.Valid()
      modifies this`loading, backend
      ensures backend.Valid()
      ensures var r := StampRequest(SubmittedRequest(old(backend.currentUser), bloodGroup, units, hospital,
                                                     urgency, description), now);
              backend.requests == [r] + old(backend.requests)
      ensures backend.history ==
                [StampHistory(SubmittedHistory(old(backend.currentUser), hospital, units, now), now)] + old(backend.history)
      ensures backend.users == old(backend.users) && backend.currentUser == old(backend.currentUser)
      ensures backend.storage ==
                old(backend.storage).(requests := Encoded(backend.requests), history := Encoded(backend.history))
      ensures navigated && !loading
    {
      loading := true;
      var current := backend.GetCurrentUser();
      var _ := backend.CreateRequest(SubmittedRequest(current, bloodGroup, units, hospital, urgency, description), now);
      current := backend.GetCurrentUser();
      var _ := backend.AddHistoryItem(SubmittedHistory(current, hospital, units, now), now);
      navigated := true;
      loading := false;
    }
  }
}
