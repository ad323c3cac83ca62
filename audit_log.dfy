/** The admin audit log view: the action badge, the action filter and how the
    action and target id of an entry are displayed. */
module AuditLog {
  import opened Common

  datatype AuditLogEntry = AuditLogEntry(
    id: string,
    adminId: string,
    action: string,
    targetType: string,
    targetId: string,
    details: string,
    createdAt: string)

  /** The fetch asks the store for at most this many entries. */
  const FetchLimit: nat := 100

  /** `.limit(100)` on the rows in the order the store returns them. */
  function Fetched(rows: seq<AuditLogEntry>): (r: seq<AuditLogEntry>)
    ensures |r| <= FetchLimit
    ensures |r| <= |rows| && r == rows[..|r|]
    ensures |rows| <= FetchLimit ==> r == rows
    ensures |rows| > FetchLimit ==> |r| == FetchLimit
  {
    if |rows| <= FetchLimit then rows else rows[..FetchLimit]
  }

  /** getActionBadgeVariant */
  function ActionBadge(action: string): (v: BadgeVariant)
    ensures v == Destructive <==> action == "delete_user"
    ensures v == Default <==> action == "update_balance"
    ensures v == Secondary <==> action == "update_verification"
    ensures v == Outline <==> action !in {"delete_user", "update_balance", "update_verification"}
  {
    match action
    case "delete_user" => Destructive
    case "update_balance" => Default
    case "update_verification" => Secondary
    case _ => Outline
  }

  predicate HasAction(filter: string, log: AuditLogEntry)
  {
    log.action == filter
  }

  /** filteredLogs: 'all' shows everything, any other value exactly the entries with that action. */
  function FilteredLogs(logs: seq<AuditLogEntry>, filter: string): seq<AuditLogEntry>
  {
    if filter == "all" then logs else Filter(log => HasAction(filter, log), logs)
  }

  lemma FilteredLogsSpec(logs: seq<AuditLogEntry>, filter: string)
    ensures filter == "all" ==> FilteredLogs(logs, filter) == logs
    ensures filter != "all" ==>
              && (forall i :: 0 <= i < |FilteredLogs(logs, filter)| ==> FilteredLogs(logs, filter)[i].action == filter)
              && (forall i :: 0 <= i < |logs| && logs[i].action == filter ==> logs[i] in FilteredLogs(logs, filter))
    ensures Subseq(FilteredLogs(logs, filter), logs)
  {
    if filter == "all" {
      SubseqRefl(logs);
    } else {
      FilterIsSubseq(log => HasAction(filter, log), logs);
    }
  }

  /** `action.replace(/_/g, ' ')`: same length, every underscore a space, nothing else touched. */
  function ActionLabel(action: string): (text: string)
    ensures |text| == |action|
    ensures '_' !in text
    ensures forall i :: 0 <= i < |action| && action[i] == '_' ==> text[i] == ' '
    ensures forall i :: 0 <= i < |action| && action[i] != '_' ==> text[i] == action[i]
  {
    seq(|action|, i requires 0 <= i < |action| => if action[i] == '_' then ' ' else action[i])
  }

  lemma KnownActionLabels()
    ensures ActionLabel("delete_user") == "delete user"
    ensures ActionLabel("update_balance") == "update balance"
    ensures ActionLabel("update_verification") == "update verification"
  {
  }

  function Min(a: nat, b: nat): nat { if a <= b then a else b }

  /** `${targetId.slice(0, 8)}...` */
  function ShortTargetId(targetId: string): (shown: string)
    ensures |shown| == Min(8, |targetId|) + 3
    ensures shown[..|shown| - 3] == targetId[..Min(8, |targetId|)]
    ensures shown[|shown| - 3..] == "..."
  {
    targetId[..Min(8, |targetId|)] + "..."
  }
}
