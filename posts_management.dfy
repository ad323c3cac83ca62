/** The admin posts table: approve, reject and delete as row updates, and the
    pending / approved / rejected partition shown above it. */
module PostsManagement {
  import opened Common
  import opened Approval

  datatype Post = Post(
    id: string,
    content: string,
    mediaUrl: Option<string>,
    approvalStatus: string,
    createdAt: string,
    userId: string,
    displayName: string)

  /** `.update({ approval_status: status }).eq('id', id)` */
  function WithStatus(rows: seq<Post>, id: string, status: string): seq<Post>
  {
    seq(|rows|, i requires 0 <= i < |rows| =>
      if rows[i].id == id then rows[i].(approvalStatus := status) else rows[i])
  }

  predicate HasOtherId(id: string, p: Post)
  {
    p.id != id
  }

  /** `.delete().eq('id', id)` */
  function WithoutPost(rows: seq<Post>, id: string): seq<Post>
  {
    Filter(p => HasOtherId(id, p), rows)
  }

  predicate IsPending(p: Post) { p.approvalStatus == Pending }
  predicate IsApproved(p: Post) { p.approvalStatus == Approved }
  predicate IsRejected(p: Post) { p.approvalStatus == Rejected }

  function PendingPosts(rows: seq<Post>): seq<Post> { Filter(IsPending, rows) }
  function ApprovedPosts(rows: seq<Post>): seq<Post> { Filter(IsApproved, rows) }
  function RejectedPosts(rows: seq<Post>): seq<Post> { Filter(IsRejected, rows) }

  /** The three lists are exact-status filters: no post is in two of them, and their
      sizes add up to at most the number of posts. */
  lemma {:induction false} PartitionSizes(rows: seq<Post>)
    ensures |PendingPosts(rows)| + |ApprovedPosts(rows)| + |RejectedPosts(rows)| <= |rows|
    ensures forall i :: 0 <= i < |PendingPosts(rows)| ==> PendingPosts(rows)[i].approvalStatus == Pending
    ensures forall i :: 0 <= i < |ApprovedPosts(rows)| ==> ApprovedPosts(rows)[i].approvalStatus == Approved
    ensures forall i :: 0 <= i < |RejectedPosts(rows)| ==> RejectedPosts(rows)[i].approvalStatus == Rejected
  {
    DisjointFiltersBound(IsPending, IsApproved, IsRejected, rows);
  }

  /** Delete removes exactly the rows with that id and keeps the others in order. */
  lemma DeleteRemovesOnlyThatId(rows: seq<Post>, id: string)
    ensures forall i :: 0 <= i < |WithoutPost(rows, id)| ==> WithoutPost(rows, id)[i].id != id
    ensures forall i :: 0 <= i < |rows| && rows[i].id != id ==> rows[i] in WithoutPost(rows, id)
    ensures Subseq(WithoutPost(rows, id), rows)
  {
    FilterIsSubseq(p => HasOtherId(id, p), rows);
  }

  /** Approval is not terminal: after a rejection the post offers Approve again, and
      after an approval it offers Reject again. */
  lemma ApprovalIsReversible(rows: seq<Post>, id: string, i: nat)
    requires i < |rows| && rows[i].id == id
    ensures ModerationButtons(WithStatus(rows, id, Rejected)[i].approvalStatus).approve
    ensures ModerationButtons(WithStatus(rows, id, Approved)[i].approvalStatus).reject
    ensures WithStatus(WithStatus(rows, id, Rejected), id, Approved)[i].approvalStatus == Approved
  {
  }

  /** The posts table as the admin view sees it. Each write takes whether the store
      accepted it; a failed write changes nothing. */
  class PostsTable {
    var rows: seq<Post>

    constructor (fetched: seq<Post>)
      ensures rows == fetched
    {
      rows := fetched;
    }

    /** handleApprove */
    method Approve(id: string, writeOk: bool)
      modifies this
      ensures !writeOk ==> rows == old(rows)
      ensures writeOk ==> rows == WithStatus(old(rows), id, Approved)
      ensures |rows| == |old(rows)|
      ensures forall i :: 0 <= i < |rows| && old(rows)[i].id != id ==> rows[i] == old(rows)[i]
      ensures writeOk ==> forall i :: 0 <= i < |rows| && old(rows)[i].id == id ==>
                rows[i] == old(rows)[i].(approvalStatus := Approved)
    {
      if writeOk {
        rows := WithStatus(rows, id, Approved);
      }
    }

    /** handleReject */
    method Reject(id: string, writeOk: bool)
      modifies this
      ensures !writeOk ==> rows == old(rows)
      ensures writeOk ==> rows == WithStatus(old(rows), id, Rejected)
      ensures |rows| == |old(rows)|
      ensures forall i :: 0 <= i < |rows| && old(rows)[i].id != id ==> rows[i] == old(rows)[i]
      ensures writeOk ==> forall i :: 0 <= i < |rows| && old(rows)[i].id == id ==>
                rows[i] == old(rows)[i].(approvalStatus := Rejected)
    {
      if writeOk {
        rows := WithStatus(rows, id, Rejected);
      }
    }

    /** handleDelete: nothing happens unless the admin confirms and the store accepts. */
    method Delete(id: string, confirmed: bool, writeOk: bool)
      modifies this
      ensures !(confirmed && writeOk) ==> rows == old(rows)
      ensures confirmed && writeOk ==> rows == WithoutPost(old(rows), id)
      ensures forall i :: 0 <= i < |rows| ==> rows[i] in old(rows)
      ensures Subseq(rows, old(rows))
    {
      if confirmed && writeOk {
        DeleteRemovesOnlyThatId(rows, id);
        rows := WithoutPost(rows, id);
      } else {
        SubseqRefl(rows);
      }
    }
  }
}
