/** The agent dashboard's statistics (src/pages/AgentDashboard.tsx): the tally of the
    fetched status strings into a `ClaimStats` record, the page state that holds it,
    and the cards that display it.

    The tally indexes the accumulator by the raw status string. The five status
    literals hit their own bucket; the literal "total" hits the `total` field, which
    the following `acc.total++` bumps again; any other string adds a key the record
    does not declare, which nothing reads. The model keeps all three cases. */
module AgentDashboard {
  import opened Wrappers
  import opened MockData

  datatype ClaimStats = ClaimStats(pending: nat, inReview: nat, approved: nat, denied: nat, archived: nat, total: nat)

  const ZeroStats := ClaimStats(0, 0, 0, 0, 0, 0)

  function StatsBucketSum(c: ClaimStats): nat {
    c.pending + c.inReview + c.approved + c.denied + c.archived
  }

  /** The property of the accumulator that `acc[status]` addresses: one of the five
      buckets, the `total` field itself, or a key the record does not declare. */
  datatype StatusKey = BucketKey(status: ClaimStatus) | TotalKey | ExtraKey(name: string)

  function KeyOf(status: string): (k: StatusKey)
    ensures k.BucketKey? <==> ParseStatus(status).Some?
    ensures k.BucketKey? ==> StatusName(k.status) == status
    ensures k.TotalKey? <==> status == "total"
  {
    match ParseStatus(status)
    case Some(s) => BucketKey(s)
    case None => if status == "total" then TotalKey else ExtraKey(status)
  }

  /** The keys the fetched rows address, row by row. */
  function KeysOf(statuses: seq<string>): (keys: seq<StatusKey>)
    ensures |keys| == |statuses|
    ensures forall i :: 0 <= i < |statuses| ==> keys[i] == KeyOf(statuses[i])
  {
    seq(|statuses|, i requires 0 <= i < |statuses| => KeyOf(statuses[i]))
  }

  /** One step of the reducer: `acc[status] = (acc[status] || 0) + 1; acc.total++`. */
  function TallyStep(acc: ClaimStats, key: StatusKey): ClaimStats {
    var bumped :=
      match key
      case BucketKey(Pending) => acc.(pending := acc.pending + 1)
      case BucketKey(InReview) => acc.(inReview := acc.inReview + 1)
      case BucketKey(Approved) => acc.(approved := acc.approved + 1)
      case BucketKey(Denied) => acc.(denied := acc.denied + 1)
      case BucketKey(Archived) => acc.(archived := acc.archived + 1)
      case TotalKey => acc.(total := acc.total + 1)
      case ExtraKey(_) => acc;
    bumped.(total := bumped.total + 1)
  }

  /** The reduce over the addressed keys, from the all-zero record. */
  function Tally(keys: seq<StatusKey>): ClaimStats {
    if keys == [] then ZeroStats
    else TallyStep(Tally(keys[..|keys| - 1]), keys[|keys| - 1])
  }

  /** How many of `keys` address `k`. */
  function CountKey(keys: seq<StatusKey>, k: StatusKey): nat {
    if keys == [] then 0
    else CountKey(keys[..|keys| - 1], k) + (if keys[|keys| - 1] == k then 1 else 0)
  }

  /** How many of `keys` address one of the five buckets. */
  function CountBuckets(keys: seq<StatusKey>): nat {
    if keys == [] then 0
    else CountBuckets(keys[..|keys| - 1]) + (if keys[|keys| - 1].BucketKey? then 1 else 0)
  }

  /** Every fetched status is one of the five literals. */
  ghost predicate AllKnown(keys: seq<StatusKey>) {
    forall i :: 0 <= i < |keys| ==> keys[i].BucketKey?
  }

  /** Each status literal increments exactly its own bucket. */
  lemma {:induction false} TallyBuckets(keys: seq<StatusKey>)
    ensures Tally(keys).pending == CountKey(keys, BucketKey(Pending))
    ensures Tally(keys).inReview == CountKey(keys, BucketKey(InReview))
    ensures Tally(keys).approved == CountKey(keys, BucketKey(Approved))
    ensures Tally(keys).denied == CountKey(keys, BucketKey(Denied))
    ensures Tally(keys).archived == CountKey(keys, BucketKey(Archived))
  {
    if keys != [] {
      TallyBuckets(keys[..|keys| - 1]);
    }
  }

  /** `total` counts every row, and a row whose status is the literal "total" once more. */
  lemma {:induction false} TallyTotal(keys: seq<StatusKey>)
    ensures Tally(keys).total == |keys| + CountKey(keys, TotalKey)
  {
    if keys != [] {
      TallyTotal(keys[..|keys| - 1]);
    }
  }

  /** The five buckets together count exactly the rows that are status literals. */
  lemma {:induction false} TallyBucketSum(keys: seq<StatusKey>)
    ensures StatsBucketSum(Tally(keys)) == CountBuckets(keys)
  {
    if keys != [] {
      TallyBucketSum(keys[..|keys| - 1]);
    }
  }

  /** Without a row whose status is the literal "total", `total` is the row count. */
  lemma TotalIsRowCount(keys: seq<StatusKey>)
    requires CountKey(keys, TotalKey) == 0
    ensures Tally(keys).total == |keys|
  {
    TallyTotal(keys);
  }

  /** When every row addresses a bucket, the buckets account for every row. */
  lemma BucketsCoverRows(keys: seq<StatusKey>)
    requires CountBuckets(keys) == |keys|
    ensures StatsBucketSum(Tally(keys)) == |keys|
  {
    TallyBucketSum(keys);
  }

  lemma {:induction false} AllKnownCounts(keys: seq<StatusKey>)
    requires AllKnown(keys)
    ensures CountBuckets(keys) == |keys| && CountKey(keys, TotalKey) == 0
  {
    if keys != [] {
      AllKnownCounts(keys[..|keys| - 1]);
    }
  }

  /** When every row is a status literal, `total` is the row count and the five buckets sum to it. */
  lemma TallyAllKnown(keys: seq<StatusKey>)
    requires AllKnown(keys)
    ensures Tally(keys).total == |keys|
    ensures StatsBucketSum(Tally(keys)) == Tally(keys).total
  {
    AllKnownCounts(keys);
    TotalIsRowCount(keys);
    BucketsCoverRows(keys);
  }

  /** The reduce as the source runs it: a pass over the rows that updates the accumulator. */
  method TallyStats(statuses: seq<string>) returns (acc: ClaimStats)
    ensures acc == Tally(KeysOf(statuses))
  {
    ghost var keys := KeysOf(statuses);
    acc := ClaimStats(0, 0, 0, 0, 0, 0);
    for i := 0 to |statuses|
      invariant acc == Tally(keys[..i])
    {
      assert keys[..i + 1][..i] == keys[..i];
      var status := statuses[i];
      match ParseStatus(status) {
        case Some(Pending) => acc := acc.(pending := acc.pending + 1);
        case Some(InReview) => acc := acc.(inReview := acc.inReview + 1);
        case Some(Approved) => acc := acc.(approved := acc.approved + 1);
        case Some(Denied) => acc := acc.(denied := acc.denied + 1);
        case Some(Archived) => acc := acc.(archived := acc.archived + 1);
        case None =>
          if status == "total" {
            acc := acc.(total := acc.total + 1);
          }
      }
      acc := acc.(total := acc.total + 1);
    }
    assert keys[..|statuses|] == keys;
  }

  /** What the `select('status')` query returned: an error, or rows (possibly `null`). */
  datatype FetchResponse = FetchError | Fetched(data: Option<seq<string>>)

  class AgentDashboardPage {
    var claimStats: ClaimStats
    var loading: bool

    constructor ()
      ensures claimStats == ZeroStats && loading
    {
      claimStats := ZeroStats;
      loading := true;
    }

    /** `fetchClaimStats`: new stats only when rows arrived; `loading` is off afterwards. */
    method FetchClaimStats(response: FetchResponse)
      modifies this
      ensures !loading
      ensures claimStats == if response.Fetched? && response.data.Some?
                            then Tally(KeysOf(response.data.value)) else old(claimStats)
    {
      loading := true;
      if response.Fetched? && response.data.Some? {
        claimStats := TallyStats(response.data.value);
      }
      loading := false;
    }
  }

  datatype StatCard = StatCard(title: string, value: nat)

  /** The five cards: total, pending, in review, approved and denied. */
  function StatCards(stats: ClaimStats): (cards: seq<StatCard>)
    ensures |cards| == 5 && cards[0] == StatCard("Total Claims", stats.total)
    ensures cards[1] == StatCard("Pending", stats.pending)
    ensures cards[2] == StatCard("In Review", stats.inReview)
    ensures cards[3] == StatCard("Approved", stats.approved)
    ensures cards[4] == StatCard("Denied", stats.denied)
    ensures forall i :: 0 <= i < |cards| ==> cards[i].title != "Archived"
  {
    [ StatCard("Total Claims", stats.total),
      StatCard("Pending", stats.pending),
      StatCard("In Review", stats.inReview),
      StatCard("Approved", stats.approved),
      StatCard("Denied", stats.denied) ]
  }

  /** Archived claims are counted but not shown: when every fetched status is one of the
      five literals, the four status cards plus the archived count make up the total card. */
  lemma ArchivedCountedNotShown(statuses: seq<string>)
    requires forall i :: 0 <= i < |statuses| ==> ParseStatus(statuses[i]).Some?
    ensures var stats := Tally(KeysOf(statuses));
      var cards := StatCards(stats);
      cards[0].value == |statuses| &&
      cards[1].value + cards[2].value + cards[3].value + cards[4].value + stats.archived
        == cards[0].value
  {
    var keys := KeysOf(statuses);
    assert AllKnown(keys);
    TallyAllKnown(keys);
  }
}
