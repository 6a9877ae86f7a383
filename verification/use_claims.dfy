/** The claim list engine (src/hooks/useClaims.ts): the stored claim record, the
    tab and search filter, the selection toggle, and the sequential bulk status
    update against the claim store. The store is a map from claim id to record
    whose writes can fail; which ids fail is part of the store's state, supplied
    by the environment, since the backend that decides it is outside the model. */
module UseClaims {
  import opened Wrappers
  import opened Seqs
  import opened MockData

  /** One row of the `claims` table. Dates are integer timestamps, amounts integer cents. */
  datatype SupabaseClaim = SupabaseClaim(
    id: string,
    claimantName: string,
    claimantEmail: Option<string>,
    claimantPhone: Option<string>,
    policyNumber: string,
    amount: Option<int>,
    description: Option<string>,
    status: ClaimStatus,
    createdAt: int,
    updatedAt: int,
    userId: string,
    incidentDate: Option<int>)

  // ---------------------------------------------------------------------------
  // The store's row update: `update({status, updated_at}).eq('id', id)`

  /** The row after a status write at time `now`: status and `updatedAt` change, nothing else. */
  function Restamp(c: SupabaseClaim, status: ClaimStatus, now: int): (r: SupabaseClaim)
    ensures r.status == status && r.updatedAt == now
    ensures r.(status := c.status, updatedAt := c.updatedAt) == c
  {
    c.(status := status, updatedAt := now)
  }

  /** The table after a successful status write to `id`. A filter that matches no
      row is not an error for the store: the table is left as it was. */
  function WriteStatus(rows: map<string, SupabaseClaim>, id: string, status: ClaimStatus, now: int)
    : (r: map<string, SupabaseClaim>)
    ensures r.Keys == rows.Keys
    ensures forall k :: k in r ==> r[k] == if k == id then Restamp(rows[k], status, now) else rows[k]
  {
    if id in rows then rows[id := Restamp(rows[id], status, now)] else rows
  }

  /** The table after successful writes to each of `ids` in turn. */
  function WriteAll(rows: map<string, SupabaseClaim>, ids: seq<string>, status: ClaimStatus, now: int)
    : map<string, SupabaseClaim>
  {
    if ids == [] then rows
    else WriteStatus(WriteAll(rows, ids[..|ids| - 1], status, now), ids[|ids| - 1], status, now)
  }

  /** After the writes, exactly the rows named in `ids` carry the new status and time;
      every other row, and every other field, is as before. */
  lemma {:induction false} WriteAllEffect(rows: map<string, SupabaseClaim>, ids: seq<string>, status: ClaimStatus, now: int)
    ensures WriteAll(rows, ids, status, now).Keys == rows.Keys
    ensures forall k :: k in rows ==>
      WriteAll(rows, ids, status, now)[k] == if k in ids then Restamp(rows[k], status, now) else rows[k]
  {
    if ids != [] {
      var front := ids[..|ids| - 1];
      WriteAllEffect(rows, front, status, now);
      assert forall k :: k in ids <==> k in front || k == ids[|ids| - 1];
    }
  }

  /** Index of the first id whose write the store rejects, or `|ids|` when none is rejected. */
  function FirstFailure(ids: seq<string>, failing: set<string>): (k: nat)
    ensures k <= |ids|
    ensures forall j :: 0 <= j < k ==> ids[j] !in failing
    ensures k < |ids| ==> ids[k] in failing
  {
    if ids == [] then 0
    else if ids[0] in failing then 0
    else 1 + FirstFailure(ids[1..], failing)
  }

  /** The claim store: the `claims` table and the ids whose writes the backend rejects. */
  class ClaimStore {
    var rows: map<string, SupabaseClaim>
    var failing: set<string>

    constructor (rows0: map<string, SupabaseClaim>, failing0: set<string>)
      ensures rows == rows0 && failing == failing0
    {
      rows := rows0;
      failing := failing0;
    }

    /** One status write; `ok` is false when the store returns an error. */
    method UpdateStatus(id: string, status: ClaimStatus, now: int) returns (ok: bool)
      modifies this`rows
      ensures ok <==> id !in failing
      ensures rows == if ok then WriteStatus(old(rows), id, status, now) else old(rows)
    {
      ok := id !in failing;
      if ok {
        rows := WriteStatus(rows, id, status, now);
      }
    }
  }

  // ---------------------------------------------------------------------------
  // filteredClaims

  /** The status tabs: every claim, or one status. */
  datatype Tab = AllTab | StatusTab(status: ClaimStatus)

  /** `toLowerCase` on the ASCII letters. */
  function ToLower(s: string): (r: string)
    ensures |r| == |s|
    ensures forall i :: 0 <= i < |s| ==> r[i] == if 'A' <= s[i] <= 'Z' then (s[i] as int + 32) as char else s[i]
  {
    seq(|s|, i requires 0 <= i < |s| => if 'A' <= s[i] <= 'Z' then (s[i] as int + 32) as char else s[i])
  }

  /** `needle` occurs in `hay` starting at index `i`. */
  ghost predicate OccursAt(hay: string, needle: string, i: int) {
    0 <= i && i + |needle| <= |hay| && hay[i..i + |needle|] == needle
  }

  /** Away from index 0, an occurrence in `hay` is an occurrence in its tail. */
  lemma OccursInTail(hay: string, needle: string)
    requires hay != [] && !OccursAt(hay, needle, 0)
    ensures (exists i :: OccursAt(hay, needle, i)) <==> (exists i :: OccursAt(hay[1..], needle, i))
  {
    forall i | OccursAt(hay[1..], needle, i) ensures OccursAt(hay, needle, i + 1) {
      assert hay[1..][i..i + |needle|] == hay[i + 1..i + 1 + |needle|];
    }
    forall i | OccursAt(hay, needle, i) ensures OccursAt(hay[1..], needle, i - 1) {
      assert hay[1..][i - 1..i - 1 + |needle|] == hay[i..i + |needle|];
    }
  }

  /** `hay.includes(needle)`. */
  function Includes(hay: string, needle: string): (r: bool)
    ensures r <==> exists i :: OccursAt(hay, needle, i)
    decreases |hay|
  {
    if |needle| <= |hay| && hay[..|needle|] == needle then
      assert OccursAt(hay, needle, 0);
      true
    else if hay == [] then
      false
    else
      OccursInTail(hay, needle);
      Includes(hay[1..], needle)
  }

  /** The status stage: a claim stays when the tab is "all" or names its status. */
  predicate TabKeeps(tab: Tab, c: SupabaseClaim) {
    tab.AllTab? || c.status == tab.status
  }

  /** The search stage: a claim stays when the term is empty or its lower-cased form
      occurs in the lower-cased claimant name, policy number or description; a
      missing description matches nothing. */
  predicate SearchKeeps(term: string, c: SupabaseClaim) {
    term == "" ||
    var t := ToLower(term);
    Includes(ToLower(c.claimantName), t) ||
    Includes(ToLower(c.policyNumber), t) ||
    (c.description.Some? && Includes(ToLower(c.description.value), t))
  }

  function FilterByTab(claims: seq<SupabaseClaim>, tab: Tab): (r: seq<SupabaseClaim>)
    ensures Subseq(r, claims)
    ensures tab.AllTab? ==> r == claims
    ensures tab.StatusTab? ==> forall i :: 0 <= i < |r| ==> r[i].status == tab.status
    ensures forall c :: c in r <==> c in claims && TabKeeps(tab, c)
    ensures forall c :: multiset(r)[c] == if TabKeeps(tab, c) then multiset(claims)[c] else 0
  {
    Filter(claims, (c: SupabaseClaim) => TabKeeps(tab, c))
  }

  function FilterBySearch(claims: seq<SupabaseClaim>, term: string): (r: seq<SupabaseClaim>)
    ensures Subseq(r, claims)
    ensures term == "" ==> r == claims
    ensures forall c :: c in r <==> c in claims && SearchKeeps(term, c)
    ensures forall c :: multiset(r)[c] == if SearchKeeps(term, c) then multiset(claims)[c] else 0
  {
    Filter(claims, (c: SupabaseClaim) => SearchKeeps(term, c))
  }

  /** The list shown: the status stage, then the search stage. */
  function FilteredClaims(claims: seq<SupabaseClaim>, tab: Tab, term: string): (r: seq<SupabaseClaim>)
    ensures Subseq(r, claims)
    ensures tab.AllTab? && term == "" ==> r == claims
    ensures forall c :: c in r <==> c in claims && TabKeeps(tab, c) && SearchKeeps(term, c)
    ensures forall c :: multiset(r)[c] == (if TabKeeps(tab, c) && SearchKeeps(term, c)
                                           then multiset(claims)[c] else 0)
  {
    var byTab := FilterByTab(claims, tab);
    var r := FilterBySearch(byTab, term);
    SubseqTrans(r, byTab, claims);
    r
  }

  // ---------------------------------------------------------------------------
  // handleClaimSelect

  /** The selection after a click on `id`: removed if selected, appended if not. */
  function ToggleSelection(prev: seq<string>, id: string): (r: seq<string>)
    ensures id in prev ==> id !in r && Subseq(r, prev)
    ensures id in prev ==> forall x :: x != id ==> (x in r <==> x in prev)
    ensures id in prev ==> forall x :: multiset(r)[x] == if x == id then 0 else multiset(prev)[x]
    ensures id !in prev ==> r == prev + [id]
    ensures NoDup(prev) ==> NoDup(r)
  {
    if id in prev then
      FilterKeepsNoDup(prev, (x: string) => x != id);
      Filter(prev, (x: string) => x != id)
    else
      prev + [id]
  }

  /** Two clicks on the same id restore the selection as a set, and restore the
      exact sequence when the id was not selected before. */
  lemma ToggleTwice(prev: seq<string>, id: string)
    ensures forall x :: x in ToggleSelection(ToggleSelection(prev, id), id) <==> x in prev
    ensures id !in prev ==> ToggleSelection(ToggleSelection(prev, id), id) == prev
  {
    if id !in prev {
      FilterSnocRejected(prev, id, (x: string) => x != id);
    }
  }

  // ---------------------------------------------------------------------------
  // The hook's state and handleBulkAction

  datatype BulkOutcome =
    | NothingSelected                // "Please select at least one claim"
    | AllUpdated(count: nat)         // "Updated <count> claims to <status>"
    | UpdateFailed(failedId: string) // "Failed to update claims"

  class ClaimsHook {
    const store: ClaimStore
    var claims: seq<SupabaseClaim>
    var selectedClaims: seq<string>
    var activeTab: Tab
    var searchTerm: string

    constructor (store: ClaimStore)
      ensures this.store == store
      ensures claims == [] && selectedClaims == [] && activeTab == AllTab && searchTerm == ""
    {
      this.store := store;
      claims := [];
      selectedClaims := [];
      activeTab := AllTab;
      searchTerm := "";
    }

    /** The list the page shows for the current tab and search term. */
    function Visible(): (r: seq<SupabaseClaim>)
      reads this
      ensures Subseq(r, claims)
      ensures forall c :: c in r <==> c in claims && TabKeeps(activeTab, c) && SearchKeeps(searchTerm, c)
    {
      FilteredClaims(claims, activeTab, searchTerm)
    }

    method HandleClaimSelect(id: string)
      modifies this`selectedClaims
      ensures selectedClaims == ToggleSelection(old(selectedClaims), id)
    {
      selectedClaims := ToggleSelection(selectedClaims, id);
    }

    /** Writes `newStatus` to each selected id in selection order, stopping at the
        first write the store rejects; the selection is cleared only when all succeed. */
    method HandleBulkAction(newStatus: ClaimStatus, now: int) returns (outcome: BulkOutcome)
      modifies this`selectedClaims, store`rows
      ensures store.failing == old(store.failing)
      ensures old(selectedClaims) == [] ==>
        outcome == NothingSelected && store.rows == old(store.rows) && selectedClaims == []
      ensures old(selectedClaims) != [] ==>
        var k := FirstFailure(old(selectedClaims), store.failing);
        && store.rows == WriteAll(old(store.rows), old(selectedClaims)[..k], newStatus, now)
        && (k == |old(selectedClaims)| ==> outcome == AllUpdated(k) && selectedClaims == [])
        && (k < |old(selectedClaims)| ==>
              outcome == UpdateFailed(old(selectedClaims)[k]) && selectedClaims == old(selectedClaims))
    {
      if |selectedClaims| == 0 {
        return NothingSelected;
      }
      var i := 0;
      while i < |selectedClaims|
        invariant 0 <= i <= FirstFailure(selectedClaims, store.failing)
        invariant store.failing == old(store.failing) && selectedClaims == old(selectedClaims)
        invariant store.rows == WriteAll(old(store.rows), selectedClaims[..i], newStatus, now)
      {
        var ok := store.UpdateStatus(selectedClaims[i], newStatus, now);
        if !ok {
          return UpdateFailed(selectedClaims[i]);
        }
        assert selectedClaims[..i + 1][..i] == selectedClaims[..i];
        i := i + 1;
      }
      assert selectedClaims[..i] == selectedClaims;
      outcome := AllUpdated(|selectedClaims|);
      selectedClaims := [];
    }
  }
}
