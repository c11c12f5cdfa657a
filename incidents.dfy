/**
 * The incident lifecycle (src/rescue_gent/main.py, with the status default of
 * src/rescue_gent/models.py).
 *
 * An incident moves "Needs Dispatch" -> "Acknowledged" -> "Dispatched: <team>".
 * The transitions are stated first as pure functions on the store's map, where
 * their properties are proved; `IncidentStore` is the stored table, whose
 * methods update one record's status in place and are proved to agree with
 * those functions.
 */
module Incidents {
  import opened Wrappers
  import Triage

  const NeedsDispatch: string := "Needs Dispatch"
  const Acknowledged: string := "Acknowledged"
  const DispatchedPrefix: string := "Dispatched: "
  const MustAcknowledgeFirst: string := "Incident must be acknowledged first."

  /** Scores at or above this request an escalation alert. */
  const AlertThreshold: int := 75

  /** The volunteer teams known to the system (VOLUNTEER_TEAMS). */
  const VolunteerTeams: set<string> := {"Team Alpha (Medical)", "Team Bravo (Logistics)", "Team Charlie (S&R)"}

  /** A stored incident. Only `status` ever changes after creation. */
  datatype Incident = Incident(
    id: int,
    message: string,
    priorityScore: int,
    status: string,
    details: Triage.TriageData)

  /** What a transition endpoint answers: the new status, or a failure with an
      optional reason. */
  datatype TransitionResult = Success(newStatus: string) | Failed(reason: Option<string>)

  /** A transition's answer together with the store it leaves behind. */
  datatype Transition = Transition(result: TransitionResult, store: map<int, Incident>)

  /** The arguments handed to the escalation notifier. */
  datatype Alert = Alert(priorityScore: int, message: string, needs: seq<string>, incidentId: int)

  predicate IsDispatched(status: string)
  {
    |DispatchedPrefix| <= |status| && status[..|DispatchedPrefix|] == DispatchedPrefix
  }

  /** The statuses the lifecycle can produce. */
  predicate IsLifecycleStatus(status: string)
  {
    status == NeedsDispatch || status == Acknowledged || IsDispatched(status)
  }

  /** The store's invariant: ids are the keys, below the next id to assign,
      every status is a lifecycle status and every score lies in [0, 100]. */
  ghost predicate WellFormedStore(store: map<int, Incident>, nextId: int)
  {
    1 <= nextId
    && forall id :: id in store ==>
         1 <= id < nextId
         && store[id].id == id
         && IsLifecycleStatus(store[id].status)
         && 0 <= store[id].priorityScore <= 100
  }

  /** `after` differs from `before` at most in the status of incident `id`. */
  ghost predicate OnlyStatusChanged(before: map<int, Incident>, after: map<int, Incident>, id: int)
  {
    before.Keys == after.Keys
    && id in before
    && after[id] == before[id].(status := after[id].status)
    && forall k :: k in before && k != id ==> after[k] == before[k]
  }

  /** The team selector. It ignores the coordinates and always picks the
      search-and-rescue team, which is one of the registered teams. */
  function FindClosestTeam(latitude: Option<real>, longitude: Option<real>): (team: string)
    ensures team in VolunteerTeams
  {
    "Team Charlie (S&R)"
  }

  // ---------------------------------------------------------------------
  // Transitions on the store's contents

  /** `acknowledge_incident`: succeeds exactly on an existing incident that
      needs dispatch, and then changes only that incident's status. */
  function AcknowledgeIncident(store: map<int, Incident>, id: int): (t: Transition)
    ensures t.result.Success? <==> id in store && store[id].status == NeedsDispatch
    ensures t.result.Success? ==>
              t.result.newStatus == Acknowledged
              && OnlyStatusChanged(store, t.store, id)
              && t.store[id].status == Acknowledged
    ensures t.result.Failed? ==> t.result.reason == None && t.store == store
  {
    if id in store && store[id].status == NeedsDispatch then
      Transition(Success(Acknowledged), store[id := store[id].(status := Acknowledged)])
    else
      Transition(Failed(None), store)
  }

  /** `dispatch_team`: succeeds exactly on an existing acknowledged incident,
      and then sets only its status to "Dispatched: " and the selected team. */
  function DispatchTeam(store: map<int, Incident>, id: int): (t: Transition)
    ensures t.result.Success? <==> id in store && store[id].status == Acknowledged
    ensures t.result.Success? ==>
              t.result.newStatus
                == DispatchedPrefix + FindClosestTeam(store[id].details.latitude, store[id].details.longitude)
              && IsDispatched(t.result.newStatus)
              && OnlyStatusChanged(store, t.store, id)
              && t.store[id].status == t.result.newStatus
    ensures t.result.Failed? ==> t.result.reason == Some(MustAcknowledgeFirst) && t.store == store
  {
    if id !in store || store[id].status != Acknowledged then
      Transition(Failed(Some(MustAcknowledgeFirst)), store)
    else
      var incident := store[id];
      var team := FindClosestTeam(incident.details.latitude, incident.details.longitude);
      var status := DispatchedPrefix + team;
      assert status[..|DispatchedPrefix|] == DispatchedPrefix;
      Transition(Success(status), store[id := incident.(status := status)])
  }

  // ---------------------------------------------------------------------
  // Creation

  /** Python's `str.isspace`, character by character (the characters `strip`
      removes). */
  predicate IsPythonSpace(c: char)
  {
    var n := c as int;
    (0x09 <= n <= 0x0D) || (0x1C <= n <= 0x20) || n == 0x85 || n == 0xA0 || n == 0x1680
    || (0x2000 <= n <= 0x200A) || n == 0x2028 || n == 0x2029 || n == 0x202F || n == 0x205F
    || n == 0x3000
  }

  /** `not message or not message.strip()`: empty, or whitespace only. */
  predicate IsBlank(message: string)
  {
    forall i :: 0 <= i < |message| ==> IsPythonSpace(message[i])
  }

  /** The escalation request for a freshly created incident: made exactly when
      its score reaches the threshold, and carrying its score, message,
      resource needs and id. */
  function AlertFor(incident: Incident): (alert: Option<Alert>)
    ensures alert.Some? <==> incident.priorityScore >= AlertThreshold
    ensures alert.Some? ==>
              alert.value.incidentId == incident.id
              && alert.value.priorityScore == incident.priorityScore
              && alert.value.message == incident.message
              && alert.value.needs == incident.details.resourceNeeds
  {
    if incident.priorityScore >= AlertThreshold then
      Some(Alert(incident.priorityScore, incident.message, incident.details.resourceNeeds, incident.id))
    else
      None
  }

  // ---------------------------------------------------------------------
  // Listing

  predicate SortedByScoreDesc(s: seq<Incident>)
  {
    forall i, j :: 0 <= i < j < |s| ==> s[i].priorityScore >= s[j].priorityScore
  }

  /** Inserts `x` before the first record that scores no higher than it. */
  function InsertByScore(x: Incident, s: seq<Incident>): (r: seq<Incident>)
    requires SortedByScoreDesc(s)
    ensures SortedByScoreDesc(r)
    ensures multiset(r) == multiset(s) + multiset{x}
    ensures |r| == |s| + 1 && (r[0] == x || (|s| > 0 && r[0] == s[0]))
  {
    if s == [] || x.priorityScore >= s[0].priorityScore then
      [x] + s
    else
      var rest := InsertByScore(x, s[1..]);
      assert s == [s[0]] + s[1..];
      [s[0]] + rest
  }

  /** Sorting by descending score: a sorted permutation of the input. */
  function SortByScore(s: seq<Incident>): (r: seq<Incident>)
    ensures SortedByScoreDesc(r)
    ensures multiset(r) == multiset(s)
  {
    if s == [] then []
    else
      assert s == [s[0]] + s[1..];
      InsertByScore(s[0], SortByScore(s[1..]))
  }

  /** The stored records with ids in [lo, hi), in ascending id order: each
      stored record in that range occurs exactly once, and nothing else. */
  function RecordsInRange(store: map<int, Incident>, lo: int, hi: int): (s: seq<Incident>)
    requires forall id :: id in store ==> store[id].id == id
    ensures forall x :: x in multiset(s) ==> lo <= x.id < hi && x.id in store && store[x.id] == x
    ensures forall id :: lo <= id < hi && id in store ==> multiset(s)[store[id]] == 1
    decreases hi - lo
  {
    if lo >= hi then []
    else
      var rest := RecordsInRange(store, lo + 1, hi);
      if lo in store then
        assert multiset(rest)[store[lo]] == 0;
        [store[lo]] + rest
      else
        rest
  }

  /** `get_all_incidents`: every stored incident exactly once, ordered by
      descending priority score. */
  function AllIncidents(store: map<int, Incident>, nextId: int): (r: seq<Incident>)
    requires WellFormedStore(store, nextId)
    ensures SortedByScoreDesc(r)
    ensures forall i :: 0 <= i < |r| ==> r[i].id in store && store[r[i].id] == r[i]
    ensures forall id :: id in store ==> multiset(r)[store[id]] == 1
  {
    var r := SortByScore(RecordsInRange(store, 1, nextId));
    assert forall i :: 0 <= i < |r| ==> r[i] in multiset(r);
    r
  }

  // ---------------------------------------------------------------------
  // The incident table

  class IncidentStore {
    /** The stored incidents, by id. */
    var incidents: map<int, Incident>
    /** The id the next created incident receives (row ids start at 1). */
    var nextId: int

    ghost predicate Valid()
      reads this
    {
      WellFormedStore(incidents, nextId)
    }

    constructor ()
      ensures Valid()
      ensures incidents == map[] && nextId == 1
    {
      incidents := map[];
      nextId := 1;
    }

    /** `process_and_save_message`, with the extractor's output for the
        message passed in. A blank message creates nothing; otherwise one
        record is added with the computed score and status "Needs Dispatch",
        and an alert is requested iff the score is at least 75. */
    method ProcessAndSaveMessage(message: string, extracted: Triage.TriageData)
      returns (created: Option<Incident>, alert: Option<Alert>)
      requires Valid()
      modifies this
      ensures Valid()
      ensures created.None? <==> IsBlank(message)
      ensures created.None? ==> incidents == old(incidents) && nextId == old(nextId) && alert == None
      ensures created.Some? ==>
                created.value
                  == Incident(old(nextId), message, Triage.PriorityScore(extracted, message), NeedsDispatch, extracted)
                && old(nextId) !in old(incidents)
                && incidents == old(incidents)[old(nextId) := created.value]
                && nextId == old(nextId) + 1
                && alert == AlertFor(created.value)
    {
      if IsBlank(message) {
        return None, None;
      }
      var result := Triage.CalculateRescueScore(extracted, message);
      var incident := Incident(nextId, message, result.priorityScore, NeedsDispatch, extracted);
      incidents := incidents[nextId := incident];
      nextId := nextId + 1;
      created := Some(incident);
      if incident.priorityScore >= AlertThreshold {
        alert := Some(Alert(incident.priorityScore, incident.message, incident.details.resourceNeeds, incident.id));
      } else {
        alert := None;
      }
    }

    /** `acknowledge_incident`, updating the stored status in place. */
    method Acknowledge(id: int) returns (result: TransitionResult)
      requires Valid()
      modifies this
      ensures Valid()
      ensures Transition(result, incidents) == AcknowledgeIncident(old(incidents), id)
      ensures nextId == old(nextId)
    {
      if id in incidents && incidents[id].status == NeedsDispatch {
        incidents := incidents[id := incidents[id].(status := Acknowledged)];
        return Success(Acknowledged);
      }
      return Failed(None);
    }

    /** `dispatch_team`, updating the stored status in place. */
    method Dispatch(id: int) returns (result: TransitionResult)
      requires Valid()
      modifies this
      ensures Valid()
      ensures Transition(result, incidents) == DispatchTeam(old(incidents), id)
      ensures nextId == old(nextId)
    {
      if id !in incidents || incidents[id].status != Acknowledged {
        return Failed(Some(MustAcknowledgeFirst));
      }
      var incident := incidents[id];
      var team := FindClosestTeam(incident.details.latitude, incident.details.longitude);
      incidents := incidents[id := incident.(status := DispatchedPrefix + team)];
      result := Success(DispatchedPrefix + team);
    }

    /** `get_all_incidents`: every stored incident exactly once, by
        descending priority score. */
    method GetAllIncidents() returns (list: seq<Incident>)
      requires Valid()
      ensures SortedByScoreDesc(list)
      ensures forall i :: 0 <= i < |list| ==> list[i].id in incidents && incidents[list[i].id] == list[i]
      ensures forall id :: id in incidents ==> multiset(list)[incidents[id]] == 1
    {
      list := AllIncidents(incidents, nextId);
    }
  }

  // ---------------------------------------------------------------------
  // Properties of the lifecycle

  /** Transitions keep the store well formed. */
  lemma TransitionsPreserveWellFormed(store: map<int, Incident>, nextId: int, id: int)
    requires WellFormedStore(store, nextId)
    ensures WellFormedStore(AcknowledgeIncident(store, id).store, nextId)
    ensures WellFormedStore(DispatchTeam(store, id).store, nextId)
  {
  }

  /** A dispatched status is neither of the states a transition starts from. */
  lemma {:induction false} DispatchedIsNotAGuardState(status: string)
    requires IsDispatched(status)
    ensures status != NeedsDispatch && status != Acknowledged
  {
    assert status[0] == DispatchedPrefix[0] == 'D';
  }

  /** No transition leaves a dispatched incident: both fail and change nothing. */
  lemma DispatchedIsTerminal(store: map<int, Incident>, id: int)
    requires id in store && IsDispatched(store[id].status)
    ensures AcknowledgeIncident(store, id) == Transition(Failed(None), store)
    ensures DispatchTeam(store, id) == Transition(Failed(Some(MustAcknowledgeFirst)), store)
  {
    DispatchedIsNotAGuardState(store[id].status);
  }

  /** A second acknowledge of the same incident fails and changes nothing. */
  lemma AcknowledgeTwiceFails(store: map<int, Incident>, id: int)
    ensures var once := AcknowledgeIncident(store, id).store;
            AcknowledgeIncident(once, id) == Transition(Failed(None), once)
  {
  }

  /** Dispatching before acknowledging fails with the "acknowledge first"
      reason and changes nothing. */
  lemma DispatchBeforeAcknowledgeFails(store: map<int, Incident>, id: int)
    requires id in store && store[id].status == NeedsDispatch
    ensures DispatchTeam(store, id) == Transition(Failed(Some(MustAcknowledgeFirst)), store)
  {
  }

  /** From "Needs Dispatch", acknowledge then dispatch succeed in turn and
      leave the incident dispatched to the search-and-rescue team, with its
      id, message, score and details untouched. */
  lemma LifecycleRun(store: map<int, Incident>, id: int)
    requires id in store && store[id].status == NeedsDispatch
    ensures var acked := AcknowledgeIncident(store, id);
            var dispatched := DispatchTeam(acked.store, id);
            acked.result == Success(Acknowledged)
            && dispatched.result == Success("Dispatched: Team Charlie (S&R)")
            && dispatched.store == store[id := store[id].(status := "Dispatched: Team Charlie (S&R)")]
  {
    var acked := AcknowledgeIncident(store, id);
    assert acked.store == store[id := store[id].(status := Acknowledged)];
    var status := DispatchedPrefix + FindClosestTeam(store[id].details.latitude, store[id].details.longitude);
    assert status == "Dispatched: Team Charlie (S&R)";
    assert DispatchTeam(acked.store, id) == Transition(Success(status), acked.store[id := acked.store[id].(status := status)]);
  }

  /** A critical report always requests an alert once stored. */
  lemma CriticalReportAlerts(id: int, message: string, extracted: Triage.TriageData)
    requires extracted.injurySeverity == Triage.Critical
    ensures AlertFor(Incident(id, message, Triage.PriorityScore(extracted, message), NeedsDispatch, extracted)).Some?
  {
  }

  /** A report the extractor could not parse never requests an alert. */
  lemma ExtractionFallbackNeverAlerts(id: int, message: string)
    ensures var score := Triage.PriorityScore(Triage.ExtractionFallback, message);
            AlertFor(Incident(id, message, score, NeedsDispatch, Triage.ExtractionFallback)) == None
  {
    Triage.ExtractionFallbackScore(message);
  }
}
