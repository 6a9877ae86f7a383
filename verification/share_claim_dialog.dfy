/** The share dialog (src/components/ShareClaimDialog.tsx): the list of agents a claim
    can be shared with, and the share action's guard and reset. The share itself
    only announces the recipient; nothing is stored. `isOpen` is the parent page's
    open flag, which the dialog's `onClose` clears. */
module ShareClaimDialog {
  import opened Wrappers
  import opened Seqs
  import opened MockData

  /** The agents offered in the picker: every agent except the claim's assignee, in
      table order. Without a claim every agent is offered. */
  function CandidateRecipients(agents: seq<Agent>, claim: Option<Claim>): (r: seq<Agent>)
    ensures Subseq(r, agents)
    ensures claim.None? ==> r == agents
    ensures forall a :: a in r <==> a in agents && (claim.None? || a.id != claim.value.assignedTo)
    ensures forall a :: multiset(r)[a] == (if claim.None? || a.id != claim.value.assignedTo
                                           then multiset(agents)[a] else 0)
  {
    Filter(agents, (a: Agent) => claim.None? || a.id != claim.value.assignedTo)
  }

  /** The outcome of pressing "Share Claim". */
  datatype ShareOutcome =
    | NoAgentSelected                    // "Please select an agent"
    | SharedWith(recipient: Option<Agent>) // the agent the selected id resolves to, if any

  class ShareDialog {
    var selectedAgent: string
    var isOpen: bool

    constructor (isOpen: bool)
      ensures selectedAgent == "" && this.isOpen == isOpen
    {
      selectedAgent := "";
      this.isOpen := isOpen;
    }

    /** The picker's `onValueChange`. */
    method SelectAgent(id: string)
      modifies this`selectedAgent
      ensures selectedAgent == id
    {
      selectedAgent := id;
    }

    /** `handleShare`: with nothing selected it reports the error and changes nothing;
        otherwise it resolves the selection by the first agent with that id, closes
        the dialog and clears the selection. */
    method HandleShare() returns (outcome: ShareOutcome)
      modifies this
      ensures old(selectedAgent) == "" ==>
        outcome == NoAgentSelected && selectedAgent == old(selectedAgent) && isOpen == old(isOpen)
      ensures old(selectedAgent) != "" ==>
        outcome == SharedWith(GetAgentById(SampleAgents, old(selectedAgent)))
        && selectedAgent == "" && !isOpen
    {
      if selectedAgent == "" {
        return NoAgentSelected;
      }
      var agent := GetAgentById(SampleAgents, selectedAgent);
      outcome := SharedWith(agent);
      isOpen := false;
      selectedAgent := "";
    }

    /** Closing without sharing, by "Cancel" or by the dialog's `onOpenChange`: the
        dialog closes and the picked agent stays selected. */
    method Close()
      modifies this`isOpen
      ensures !isOpen && selectedAgent == old(selectedAgent)
    {
      isOpen := false;
    }
  }

  /** No two sample agents share an id. */
  lemma SampleIdsDistinct()
    ensures forall i, j :: 0 <= i < j < |SampleAgents| ==> SampleAgents[i].id != SampleAgents[j].id
  {
  }

  /** An agent picked from the offered list resolves back to that same agent, who is
      not the claim's assignee. */
  lemma PickedCandidateResolves(claim: Option<Claim>, a: Agent)
    requires a in CandidateRecipients(SampleAgents, claim)
    ensures GetAgentById(SampleAgents, a.id) == Some(a)
    ensures claim.Some? ==> a.id != claim.value.assignedTo
  {
    SampleIdsDistinct();
    GetAgentByIdFindsMember(SampleAgents, a);
  }
}
