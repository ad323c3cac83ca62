/** The approval statuses of posts and adverts, and the badge and button rules
    the two moderation tables share. */
module Approval {
  import opened Common

  const Pending: string := "pending"
  const Approved: string := "approved"
  const Rejected: string := "rejected"

  /** Which moderation buttons a row offers. */
  datatype Buttons = Buttons(approve: bool, reject: bool)

  /** Approve is offered unless already approved, Reject unless already rejected. */
  function ModerationButtons(status: string): (b: Buttons)
    ensures b.approve <==> status != Approved
    ensures b.reject <==> status != Rejected
    ensures b.approve || b.reject
    ensures status == Pending ==> b.approve && b.reject
    ensures status == Approved ==> b.reject && !b.approve
    ensures status == Rejected ==> b.approve && !b.reject
  {
    Buttons(status != Approved, status != Rejected)
  }

  /** The approval badge: default when approved, destructive when rejected, secondary otherwise.
      It is coloured `default` exactly when Approve is hidden and `destructive` exactly when Reject is. */
  function ApprovalBadge(status: string): (v: BadgeVariant)
    ensures v != Outline
    ensures v == Default <==> !ModerationButtons(status).approve
    ensures v == Destructive <==> !ModerationButtons(status).reject
    ensures v == Secondary <==> ModerationButtons(status).approve && ModerationButtons(status).reject
  {
    if status == Approved then Default
    else if status == Rejected then Destructive
    else Secondary
  }
}
