/** What one resource operation reports (internal/deploy/deploy.go). */
module Actions {
  datatype Op = Create | Exists | Delete | Absent | Plan

  datatype Outcome = Done(op: Op) | Failed
}
