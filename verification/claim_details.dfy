/** The claim details page (src/pages/ClaimDetails.tsx): the held claim row, the
    status change that writes the store and then updates the held row, the
    projection of a row to the UI claim record, and the statuses the action buttons
    can set, and the Share button that only an agent's profile shows. */
module ClaimDetails {
  import opened Wrappers
  import opened MockData
  import opened UseClaims

  /** `formattedClaim`: a missing amount shows as 0 and a missing description as the
      empty string; the policy number is the claim number and the owning user is the
      assignee. */
  function FormatClaim(c: SupabaseClaim): (r: Claim)
    ensures r.id == c.id && r.claimNumber == c.policyNumber && r.policyHolder == c.claimantName
    ensures r.amount == (if c.amount.Some? then c.amount.value else 0)
    ensures r.description == (if c.description.Some? then c.description.value else "")
    ensures r.status == c.status && r.dateSubmitted == c.createdAt && r.dateUpdated == c.updatedAt
    ensures r.assignedTo == c.userId && r.notes.None?
  {
    Claim(c.id, c.policyNumber, c.claimantName, c.amount.GetOr(0), c.status,
          c.createdAt, c.updatedAt, c.description.GetOr(""), c.userId, None)
  }

  /** A status change shows up in the UI record as a new status and update date and nothing else. */
  lemma FormatAfterRestamp(c: SupabaseClaim, status: ClaimStatus, now: int)
    ensures FormatClaim(Restamp(c, status, now)) == FormatClaim(c).(status := status, dateUpdated := now)
  {
  }

  /** When the held row is the store's row and both writes use the same time, the held
      row after a successful change is the store's row after the write. */
  lemma HeldRowFollowsStore(rows: map<string, SupabaseClaim>, c: SupabaseClaim, status: ClaimStatus, now: int)
    requires c.id in rows && rows[c.id] == c
    ensures WriteStatus(rows, c.id, status, now)[c.id] == Restamp(c, status, now)
  {
  }

  /** The statuses the four action buttons pass to the status change. */
  const StatusActions: seq<ClaimStatus> := [Approved, Denied, InReview, Archived]

  /** The buttons reach every status except pending. */
  lemma ActionsExcludePending()
    ensures forall s :: s in StatusActions <==> s != Pending
  {
  }

  /** `isAgent`: the Share button is shown only for a profile whose role is agent. */
  predicate ShareButtonShown(profile: Option<Role>)
    ensures ShareButtonShown(profile) <==> profile == Some(AgentRole)
  {
    profile.Some? && profile.value == AgentRole
  }

  class ClaimDetailsPage {
    const store: ClaimStore
    var claim: Option<SupabaseClaim>
    var shareDialogOpen: bool

    constructor (store: ClaimStore, claim: Option<SupabaseClaim>)
      ensures this.store == store && this.claim == claim && !shareDialogOpen
    {
      this.store := store;
      this.claim := claim;
      shareDialogOpen := false;
    }

    /** A press of "Share Claim": the button exists only for an agent's profile, so
        for any other profile, or none, the dialog stays as it was. */
    method PressShare(profile: Option<Role>)
      modifies this`shareDialogOpen
      ensures shareDialogOpen == (old(shareDialogOpen) || ShareButtonShown(profile))
      ensures profile != Some(AgentRole) ==> shareDialogOpen == old(shareDialogOpen)
    {
      if ShareButtonShown(profile) {
        shareDialogOpen := true;
      }
    }

    /** The dialog's `onClose`. */
    method CloseShareDialog()
      modifies this`shareDialogOpen
      ensures !shareDialogOpen
    {
      shareDialogOpen := false;
    }

    /** `handleStatusChange`: without a held claim nothing happens. Otherwise the store
        write goes first; only when it succeeds is the held row given the new status
        and a fresh update time. The store write and the held row each read the clock,
        so the two times are separate inputs. The current status is not checked, so
        choosing it again still writes and re-stamps. */
    method HandleStatusChange(newStatus: ClaimStatus, writeTime: int, localTime: int) returns (updated: bool)
      modifies this`claim, store`rows
      ensures old(claim).None? ==> !updated && claim == old(claim) && store.rows == old(store.rows)
      ensures old(claim).Some? ==> updated == (old(claim).value.id !in store.failing)
      ensures old(claim).Some? && updated ==>
        && claim == Some(Restamp(old(claim).value, newStatus, localTime))
        && store.rows == WriteStatus(old(store.rows), old(claim).value.id, newStatus, writeTime)
      ensures !updated ==> claim == old(claim) && store.rows == old(store.rows)
    {
      if claim.None? {
        return false;
      }
      var current := claim.value;
      updated := store.UpdateStatus(current.id, newStatus, writeTime);
      if updated {
        claim := Some(Restamp(current, newStatus, localTime));
      }
    }
  }
}
