/**
 * The administrator's project-status update (`PUT /projects/:id/status`).
 * The status is checked against the admin status list, the project row is
 * updated, and a move to `delivered` is meant to start the loyalty engine
 * without waiting for it.
 *
 * The route refers to `loyaltyService` without importing it, so a delivery
 * throws a ReferenceError after the row is already updated; the error
 * middleware turns it into a 500. `UpdateAsWritten` models that behaviour and
 * `Update` the intended one, which the `ProjectBoard` class uses.
 */
module Admin {
  import opened JsCore
  import Validation
  import ErrorHandler
  import Loyalty

  /** The statuses this route accepts. */
  const AdminStatuses: seq<string> :=
    ["intake", "in_progress", "static_mix", "final_mix", "mastered", "review", "revisions", "delivered"]

  const Delivered := "delivered"

  datatype Project = Project(userId: Loyalty.UserId, status: string, updatedAt: int)

  datatype StatusReply =
    | Updated(row: Project)                             // 200 with the updated row
    | Rejected(code: int, error: string)                // 400 or 404
    | Failed(response: ErrorHandler.ErrorResponse)      // whatever the error middleware answers

  /** The error thrown when the unbound `loyaltyService` identifier is evaluated. */
  const UnboundLoyaltyService := ErrorHandler.AppError("ReferenceError", "", 0, 0, "loyaltyService is not defined", "")

  /** `validStatuses.includes(status)`: only a string on the list is accepted. */
  predicate AcceptedStatus(status: Validation.JsValue)
  {
    status.Str? && status.s in AdminStatuses
  }

  /** The route as intended: the new table, the reply, and whether the loyalty engine
      is started (for the project's owner). */
  function Update(projects: map<nat, Project>, id: nat, status: Validation.JsValue, now: int)
    : (r: (map<nat, Project>, StatusReply, bool))
    // a rejected request changes nothing
    ensures !AcceptedStatus(status) ==> r == (projects, Rejected(400, "Invalid project status"), false)
    ensures AcceptedStatus(status) && id !in projects ==> r == (projects, Rejected(404, "Project not found"), false)
    // an accepted request for an existing project updates exactly that row and returns it
    ensures AcceptedStatus(status) && id in projects ==>
              r.0.Keys == projects.Keys &&
              r.1 == Updated(r.0[id]) &&
              r.0[id] == Project(projects[id].userId, status.s, now) &&
              (forall k :: k in projects && k != id ==> r.0[k] == projects[k])
    // the loyalty engine starts exactly on a successful move to `delivered`
    ensures r.2 <==> r.1.Updated? && status == Validation.Str(Delivered)
  {
    if !AcceptedStatus(status) then (projects, Rejected(400, "Invalid project status"), false)
    else if id !in projects then (projects, Rejected(404, "Project not found"), false)
    else
      var row := projects[id].(status := status.s, updatedAt := now);
      (projects[id := row], Updated(row), status.s == Delivered)
  }

  /** The route as written: on a delivery the row is updated, then the unbound
      `loyaltyService` throws and the error middleware answers; the engine never starts. */
  function UpdateAsWritten(projects: map<nat, Project>, id: nat, status: Validation.JsValue, now: int, nodeEnv: string)
    : (r: (map<nat, Project>, StatusReply, bool))
    ensures r.0 == Update(projects, id, status, now).0
    ensures !r.2
    ensures status != Validation.Str(Delivered) ==> r == Update(projects, id, status, now)
  {
    var (table, reply, fire) := Update(projects, id, status, now);
    if fire then (table, Failed(ErrorHandler.Handle(UnboundLoyaltyService, nodeEnv)), false)
    else (table, reply, fire)
  }

  /** The discrepancy: delivering an existing project stores `delivered` but answers 500
      and never starts the loyalty engine, in every environment. */
  lemma DeliveryFailsAsWritten(projects: map<nat, Project>, id: nat, now: int, nodeEnv: string)
    requires id in projects
    ensures var r := UpdateAsWritten(projects, id, Validation.Str(Delivered), now, nodeEnv);
      r.0[id].status == Delivered && !r.2 &&
      r.1.Failed? && r.1.response.status == 500
    ensures Update(projects, id, Validation.Str(Delivered), now).2
  {
    assert Delivered in AdminStatuses;
  }

  /** The two status lists disagree: the validation helper's `mixing` is refused here,
      and this route's `in_progress` is refused by the helper. */
  lemma StatusListsDisagree()
    ensures Validation.IsValidStatus("mixing") && "mixing" !in AdminStatuses
    ensures "in_progress" in AdminStatuses && !Validation.IsValidStatus("in_progress")
  {
  }

  /** The project table together with the loyalty engine it feeds. */
  class ProjectBoard {
    var projects: map<nat, Project>
    const loyalty: Loyalty.LoyaltyStore

    constructor (projects: map<nat, Project>, loyalty: Loyalty.LoyaltyStore)
      ensures this.projects == projects && this.loyalty == loyalty
    {
      this.projects := projects;
      this.loyalty := loyalty;
    }

    /** `PUT /projects/:id/status` as intended. The loyalty engine runs detached: its
        outcome never reaches the reply, and its failures are only logged. */
    method UpdateStatus(id: nat, status: Validation.JsValue, now: nat, insertOk: bool, mailOk: bool)
      returns (reply: StatusReply)
      modifies this, loyalty
      ensures (projects, reply, reply.Updated? && status == Validation.Str(Delivered)) ==
              Update(old(projects), id, status, now)
      ensures reply.Updated? && status == Validation.Str(Delivered) ==>
                exists c :: (loyalty.Snapshot(), c) ==
                  Loyalty.Complete(old(loyalty.Snapshot()), old(projects)[id].userId, now, insertOk, mailOk)
      ensures !(reply.Updated? && status == Validation.Str(Delivered)) ==> loyalty.Snapshot() == old(loyalty.Snapshot())
    {
      if !AcceptedStatus(status) {
        return Rejected(400, "Invalid project status");
      }
      if id !in projects {
        return Rejected(404, "Project not found");
      }
      var row := projects[id].(status := status.s, updatedAt := now);
      projects := projects[id := row];
      if status.s == Delivered {
        var _ := loyalty.HandleProjectCompletion(row.userId, now, insertOk, mailOk);
      }
      reply := Updated(row);
    }
  }
}
