/** The claim and agent records, the sample tables and the queries over them
    (src/data/mockData.ts). Every query takes the table it reads as a parameter;
    `SampleAgents` and `SampleClaims` are the source's fixed tables. Dates are
    integers that order as the dates do (yyyymmdd), amounts are integer cents. */
module MockData {
  import opened Wrappers
  import opened Seqs

  datatype Role = AdminRole | AgentRole

  datatype Agent = Agent(id: string, name: string, email: string, role: Role)

  datatype ClaimStatus = Pending | InReview | Approved | Denied | Archived

  /** The string literal of each status, as stored and as compared in the source. */
  function StatusName(s: ClaimStatus): string {
    match s
    case Pending => "pending"
    case InReview => "inReview"
    case Approved => "approved"
    case Denied => "denied"
    case Archived => "archived"
  }

  /** The status a stored string denotes, if it is one of the five literals. */
  function ParseStatus(t: string): (r: Option<ClaimStatus>)
    ensures r.Some? ==> StatusName(r.value) == t
    ensures forall s :: StatusName(s) == t ==> r == Some(s)
  {
    if t == "pending" then Some(Pending)
    else if t == "inReview" then Some(InReview)
    else if t == "approved" then Some(Approved)
    else if t == "denied" then Some(Denied)
    else if t == "archived" then Some(Archived)
    else None
  }

  datatype Claim = Claim(
    id: string,
    claimNumber: string,
    policyHolder: string,
    amount: int,
    status: ClaimStatus,
    dateSubmitted: int,
    dateUpdated: int,
    description: string,
    assignedTo: string,
    notes: Option<string>)

  const SampleAgents: seq<Agent> := [
    Agent("1", "John Smith", "john@example.com", AdminRole),
    Agent("2", "Sarah Johnson", "sarah@example.com", AgentRole),
    Agent("3", "Michael Brown", "michael@example.com", AgentRole),
    Agent("4", "Jessica Williams", "jessica@example.com", AgentRole)
  ]

  const SampleClaims: seq<Claim> := [
    Claim("1", "CLM-2023-001", "Robert Davis", 125000, Pending, 20231015, 20231015,
          "Water damage from roof leak", "1", Some("Waiting for assessment report")),
    Claim("2", "CLM-2023-002", "Emma Wilson", 350000, InReview, 20231010, 20231017,
          "Car accident - front bumper damage", "2", Some("Repair estimate received, reviewing coverage")),
    Claim("3", "CLM-2023-003", "James Miller", 75000, Approved, 20230928, 20231014,
          "Stolen laptop - business property", "1", Some("Proof of purchase verified, payment processed")),
    Claim("4", "CLM-2023-004", "Olivia Taylor", 500000, Denied, 20230920, 20231012,
          "Medical expense claim", "3", Some("Claim outside of policy coverage period")),
    Claim("5", "CLM-2023-005", "Noah Johnson", 220000, Archived, 20230805, 20230910,
          "Home theft - jewelry items", "2", Some("Claim paid - closed")),
    Claim("6", "CLM-2023-006", "Sophia Martinez", 180000, Pending, 20231018, 20231018,
          "Fence damage from storm", "4", Some("Initial assessment scheduled")),
    Claim("7", "CLM-2023-007", "Benjamin Anderson", 320000, InReview, 20231012, 20231016,
          "Vehicle vandalism claim", "1", Some("Police report received, photos being reviewed")),
    Claim("8", "CLM-2023-008", "Isabella Thomas", 95000, Approved, 20231005, 20231017,
          "Cracked smartphone screen", "3", Some("Repair authorized, receipt pending"))
  ]

  // ---------------------------------------------------------------------------
  // getClaimStatusCount

  datatype StatusCount = StatusCount(pending: nat, inReview: nat, approved: nat, denied: nat, archived: nat)

  /** The bucket of `c` that belongs to status `s`. */
  function Bucket(c: StatusCount, s: ClaimStatus): nat {
    match s
    case Pending => c.pending
    case InReview => c.inReview
    case Approved => c.approved
    case Denied => c.denied
    case Archived => c.archived
  }

  function BucketSum(c: StatusCount): nat {
    c.pending + c.inReview + c.approved + c.denied + c.archived
  }

  /** The number of claims in `claims` whose status is `s`. */
  function CountStatus(claims: seq<Claim>, s: ClaimStatus): nat {
    if claims == [] then 0
    else CountStatus(claims[..|claims| - 1], s) + (if claims[|claims| - 1].status == s then 1 else 0)
  }

  /** The five per-status counts partition the table. */
  lemma {:induction false} CountStatusPartition(claims: seq<Claim>)
    ensures CountStatus(claims, Pending) + CountStatus(claims, InReview) + CountStatus(claims, Approved)
          + CountStatus(claims, Denied) + CountStatus(claims, Archived) == |claims|
  {
    if claims != [] {
      CountStatusPartition(claims[..|claims| - 1]);
    }
  }

  /** Tally of the table by status: one `statusCount[claim.status]++` per claim. */
  method GetClaimStatusCount(claims: seq<Claim>) returns (counts: StatusCount)
    ensures forall s :: Bucket(counts, s) == CountStatus(claims, s)
    ensures BucketSum(counts) == |claims|
  {
    counts := StatusCount(0, 0, 0, 0, 0);
    for i := 0 to |claims|
      invariant forall s :: Bucket(counts, s) == CountStatus(claims[..i], s)
    {
      assert claims[..i + 1][..i] == claims[..i];
      match claims[i].status
      case Pending => counts := counts.(pending := counts.pending + 1);
      case InReview => counts := counts.(inReview := counts.inReview + 1);
      case Approved => counts := counts.(approved := counts.approved + 1);
      case Denied => counts := counts.(denied := counts.denied + 1);
      case Archived => counts := counts.(archived := counts.archived + 1);
    }
    assert claims[..|claims|] == claims;
    CountStatusPartition(claims);
  }

  /** Counting a prefix one claim longer adds that claim. */
  lemma CountStatusSnoc(claims: seq<Claim>, k: nat)
    requires 0 < k <= |claims|
    ensures forall s :: CountStatus(claims[..k], s) == CountStatus(claims[..k - 1], s) + (if claims[k - 1].status == s then 1 else 0)
  {
    assert claims[..k][..k - 1] == claims[..k - 1];
  }

  /** The sample table holds two pending, two in-review, two approved, one denied
      and one archived claim. */
  lemma SampleStatusCounts()
    ensures CountStatus(SampleClaims, Pending) == 2 && CountStatus(SampleClaims, InReview) == 2
    ensures CountStatus(SampleClaims, Approved) == 2 && CountStatus(SampleClaims, Denied) == 1
    ensures CountStatus(SampleClaims, Archived) == 1
  {
    var c := SampleClaims;
    SampleFirstHalfCounts();
    CountStatusSnoc(c, 5); CountStatusSnoc(c, 6); CountStatusSnoc(c, 7); CountStatusSnoc(c, 8);
    assert c[..|c|] == c;
  }

  /** The first four sample claims are one of each status but archived. */
  lemma SampleFirstHalfCounts()
    ensures forall s :: CountStatus(SampleClaims[..4], s) == if s == Archived then 0 else 1
  {
    var c := SampleClaims;
    CountStatusSnoc(c, 1); CountStatusSnoc(c, 2); CountStatusSnoc(c, 3); CountStatusSnoc(c, 4);
    assert c[..0] == [];
  }

  // ---------------------------------------------------------------------------
  // getClaimsByAgent

  /** The claims assigned to `agentId`, in table order. */
  function GetClaimsByAgent(claims: seq<Claim>, agentId: string): (r: seq<Claim>)
    ensures Subseq(r, claims)
    ensures forall i :: 0 <= i < |r| ==> r[i].assignedTo == agentId
    ensures forall c :: c in r <==> c in claims && c.assignedTo == agentId
    ensures forall c :: multiset(r)[c] == if c.assignedTo == agentId then multiset(claims)[c] else 0
  {
    Filter(claims, (c: Claim) => c.assignedTo == agentId)
  }

  // ---------------------------------------------------------------------------
  // getRecentClaims

  /** Non-increasing in `dateUpdated`: most recently updated first. */
  ghost predicate NewestFirst(s: seq<Claim>) {
    forall i, j :: 0 <= i < j < |s| ==> s[i].dateUpdated >= s[j].dateUpdated
  }

  /** Inserts `x` into a newest-first list ahead of every claim no newer than it,
      so that of two equally recent claims the earlier one in the table stays first. */
  function InsertByDate(x: Claim, s: seq<Claim>): (r: seq<Claim>)
    ensures |r| == |s| + 1
    ensures multiset(r) == multiset(s) + multiset{x}
  {
    if s == [] || s[0].dateUpdated <= x.dateUpdated then [x] + s
    else
      assert s == [s[0]] + s[1..];
      [s[0]] + InsertByDate(x, s[1..])
  }

  lemma {:induction false} InsertKeepsNewestFirst(x: Claim, s: seq<Claim>)
    requires NewestFirst(s)
    ensures NewestFirst(InsertByDate(x, s))
  {
    if s != [] && s[0].dateUpdated > x.dateUpdated {
      var tail := s[1..];
      assert NewestFirst(tail) by {
        forall i, j | 0 <= i < j < |tail| ensures tail[i].dateUpdated >= tail[j].dateUpdated {
          assert tail[i] == s[i + 1] && tail[j] == s[j + 1];
        }
      }
      var rest := InsertByDate(x, tail);
      InsertKeepsNewestFirst(x, tail);
      forall y | y in rest ensures y.dateUpdated <= s[0].dateUpdated {
        assert y in multiset(rest);
        if y != x {
          assert y in multiset(tail);
          var k :| 0 <= k < |tail| && tail[k] == y;
          assert s[k + 1] == y;
        }
      }
      NewestFirstCons(s[0], rest);
      assert InsertByDate(x, s) == [s[0]] + rest;
    }
  }

  /** A claim at least as recent as every claim of a newest-first list may go in front. */
  lemma NewestFirstCons(c: Claim, t: seq<Claim>)
    requires NewestFirst(t)
    requires forall y :: y in t ==> y.dateUpdated <= c.dateUpdated
    ensures NewestFirst([c] + t)
  {
    var r := [c] + t;
    forall i, j | 0 <= i < j < |r| ensures r[i].dateUpdated >= r[j].dateUpdated {
      assert r[j] == t[j - 1];
      if i > 0 {
        assert r[i] == t[i - 1];
      }
    }
  }

  /** The claims of `s` last updated on date `d`, in their order in `s`. */
  ghost function DatedOn(s: seq<Claim>, d: int): seq<Claim> {
    if s == [] then []
    else (if s[0].dateUpdated == d then [s[0]] else []) + DatedOn(s[1..], d)
  }

  /** Claims of one date split along a concatenation. */
  lemma {:induction false} DatedOnAppend(a: seq<Claim>, b: seq<Claim>, d: int)
    ensures DatedOn(a + b, d) == DatedOn(a, d) + DatedOn(b, d)
  {
    if a != [] {
      assert (a + b)[0] == a[0] && (a + b)[1..] == a[1..] + b;
      DatedOnAppend(a[1..], b, d);
    } else {
      assert a + b == b;
    }
  }

  /** Inserting `x` puts it ahead of every claim of its own date and leaves the claims
      of every other date in their order. */
  lemma {:induction false} InsertByDateDatedOn(x: Claim, s: seq<Claim>, d: int)
    ensures DatedOn(InsertByDate(x, s), d) == (if x.dateUpdated == d then [x] else []) + DatedOn(s, d)
  {
    if s == [] || s[0].dateUpdated <= x.dateUpdated {
      assert ([x] + s)[1..] == s;
    } else {
      InsertByDateDatedOn(x, s[1..], d);
      assert ([s[0]] + InsertByDate(x, s[1..]))[1..] == InsertByDate(x, s[1..]);
    }
  }

  /** The comparator sort `(a, b) => b.dateUpdated - a.dateUpdated` of a copy of the
      table. The sort is stable: claims of one date keep their table order. */
  function SortByDateDesc(s: seq<Claim>): (r: seq<Claim>)
    ensures multiset(r) == multiset(s)
    ensures |r| == |s|
    ensures NewestFirst(r)
    ensures forall d :: DatedOn(r, d) == DatedOn(s, d)
  {
    if s == [] then []
    else
      assert s == [s[0]] + s[1..];
      InsertKeepsNewestFirst(s[0], SortByDateDesc(s[1..]));
      SortStable(s[0], SortByDateDesc(s[1..]), s[1..]);
      InsertByDate(s[0], SortByDateDesc(s[1..]))
  }

  /** Inserting the head of a table into a stable sort of its tail gives a stable sort
      of the table. */
  lemma SortStable(x: Claim, sorted: seq<Claim>, tail: seq<Claim>)
    requires forall d :: DatedOn(sorted, d) == DatedOn(tail, d)
    ensures forall d :: DatedOn(InsertByDate(x, sorted), d) == DatedOn([x] + tail, d)
  {
    forall d ensures DatedOn(InsertByDate(x, sorted), d) == DatedOn([x] + tail, d) {
      InsertByDateDatedOn(x, sorted, d);
      assert ([x] + tail)[1..] == tail;
    }
  }

  /** The end index `Array.prototype.slice(0, limit)` uses on a list of `len` elements. */
  function SliceEnd(len: nat, limit: int): (e: nat)
    ensures e <= len
    ensures limit >= 0 ==> e == if limit < len then limit else len
    ensures limit < 0 ==> e == if len + limit > 0 then len + limit else 0
  {
    if limit >= 0 then (if limit < len then limit else len)
    else if len + limit > 0 then len + limit else 0
  }

  /** The `limit` most recently updated claims, newest first; a negative `limit` counts
      back from the end, as the array `slice` does. */
  function GetRecentClaims(claims: seq<Claim>, limit: int): (r: seq<Claim>)
    ensures limit >= 0 ==> |r| == if limit < |claims| then limit else |claims|
    ensures limit < 0 ==> |r| == if |claims| + limit > 0 then |claims| + limit else 0
    ensures NewestFirst(r)
    ensures multiset(r) <= multiset(claims)
    ensures forall x, c :: x in r && c in multiset(claims) - multiset(r) ==> c.dateUpdated <= x.dateUpdated
    ensures forall d :: DatedOn(r, d) <= DatedOn(claims, d)
  {
    var sorted := SortByDateDesc(claims);
    var e := SliceEnd(|sorted|, limit);
    RecentIsTop(sorted, e);
    PrefixDatedOn(sorted, e);
    sorted[..e]
  }

  /** Of each date, a prefix of a list keeps a prefix of that date's claims. */
  lemma PrefixDatedOn(s: seq<Claim>, e: nat)
    requires e <= |s|
    ensures forall d :: DatedOn(s[..e], d) <= DatedOn(s, d)
  {
    forall d ensures DatedOn(s[..e], d) <= DatedOn(s, d) {
      assert s == s[..e] + s[e..];
      DatedOnAppend(s[..e], s[e..], d);
    }
  }

  /** `getRecentClaims()` called without a limit: the five most recently updated claims. */
  function GetRecentClaimsDefault(claims: seq<Claim>): (r: seq<Claim>)
    ensures |r| == if |claims| < 5 then |claims| else 5
    ensures NewestFirst(r)
    ensures multiset(r) <= multiset(claims)
    ensures forall x, c :: x in r && c in multiset(claims) - multiset(r) ==> c.dateUpdated <= x.dateUpdated
    ensures forall d :: DatedOn(r, d) <= DatedOn(claims, d)
  {
    GetRecentClaims(claims, 5)
  }

  /** Of two equally recent claims, a cut that keeps only one keeps the earlier in the table. */
  lemma RecentTieKeepsTableOrder(a: Claim, b: Claim)
    requires a.dateUpdated == b.dateUpdated
    ensures GetRecentClaims([a, b], 1) == [a]
  {
    var r := GetRecentClaims([a, b], 1);
    var d := a.dateUpdated;
    assert r == [r[0]];
    assert r[0] in multiset([a, b]);
    assert DatedOn(r, d) == [r[0]] + DatedOn([], d);
    assert DatedOn([a, b], d) == [a] + DatedOn([b], d);
  }

  /** Cutting a newest-first list leaves nothing in the tail newer than the head part. */
  lemma RecentIsTop(s: seq<Claim>, e: nat)
    requires NewestFirst(s) && e <= |s|
    ensures multiset(s[..e]) <= multiset(s)
    ensures forall x, c :: x in s[..e] && c in multiset(s) - multiset(s[..e]) ==> c.dateUpdated <= x.dateUpdated
  {
    assert s == s[..e] + s[e..];
    assert multiset(s) == multiset(s[..e]) + multiset(s[e..]);
    forall x, c | x in s[..e] && c in multiset(s) - multiset(s[..e])
      ensures c.dateUpdated <= x.dateUpdated
    {
      assert c in multiset(s[e..]);
      var j :| 0 <= j < |s[e..]| && s[e..][j] == c;
      var i :| 0 <= i < e && s[i] == x;
      assert s[e + j] == c;
    }
  }

  // ---------------------------------------------------------------------------
  // getClaimById, getAgentById, getAgentByEmail

  /** The first claim with identifier `id`, or none. */
  function GetClaimById(claims: seq<Claim>, id: string): (r: Option<Claim>)
    ensures r.None? <==> forall i :: 0 <= i < |claims| ==> claims[i].id != id
    ensures r.Some? ==> exists i :: 0 <= i < |claims| && claims[i] == r.value && r.value.id == id &&
                                    forall j :: 0 <= j < i ==> claims[j].id != id
  {
    Find(claims, (c: Claim) => c.id == id)
  }

  /** The first agent with identifier `id`, or none. */
  function GetAgentById(agents: seq<Agent>, id: string): (r: Option<Agent>)
    ensures r.None? <==> forall i :: 0 <= i < |agents| ==> agents[i].id != id
    ensures r.Some? ==> exists i :: 0 <= i < |agents| && agents[i] == r.value && r.value.id == id &&
                                    forall j :: 0 <= j < i ==> agents[j].id != id
  {
    Find(agents, (a: Agent) => a.id == id)
  }

  /** The first agent with e-mail `email`, or none. */
  function GetAgentByEmail(agents: seq<Agent>, email: string): (r: Option<Agent>)
    ensures r.None? <==> forall i :: 0 <= i < |agents| ==> agents[i].email != email
    ensures r.Some? ==> exists i :: 0 <= i < |agents| && agents[i] == r.value && r.value.email == email &&
                                    forall j :: 0 <= j < i ==> agents[j].email != email
  {
    Find(agents, (a: Agent) => a.email == email)
  }

  /** In a table whose ids are distinct, looking up an agent's id yields that agent. */
  lemma {:induction false} GetAgentByIdFindsMember(agents: seq<Agent>, a: Agent)
    requires forall i, j :: 0 <= i < j < |agents| ==> agents[i].id != agents[j].id
    requires a in agents
    ensures GetAgentById(agents, a.id) == Some(a)
  {
    var i :| 0 <= i < |agents| && agents[i] == a;
    var r := GetAgentById(agents, a.id);
    var k :| 0 <= k < |agents| && agents[k] == r.value && r.value.id == a.id &&
             forall j :: 0 <= j < k ==> agents[j].id != a.id;
    assert !(k < i) && !(i < k);
  }

  /** In a table whose e-mails are distinct, looking up an agent's e-mail yields that agent. */
  lemma {:induction false} GetAgentByEmailFindsMember(agents: seq<Agent>, a: Agent)
    requires forall i, j :: 0 <= i < j < |agents| ==> agents[i].email != agents[j].email
    requires a in agents
    ensures GetAgentByEmail(agents, a.email) == Some(a)
  {
    var i :| 0 <= i < |agents| && agents[i] == a;
    var r := GetAgentByEmail(agents, a.email);
    var k :| 0 <= k < |agents| && agents[k] == r.value && r.value.email == a.email &&
             forall j :: 0 <= j < k ==> agents[j].email != a.email;
    assert !(k < i) && !(i < k);
  }

  // ---------------------------------------------------------------------------
  // getMonthlyClaimsTrend

  datatype MonthTrend = MonthTrend(name: string, pending: nat, inReview: nat, approved: nat, denied: nat)

  /** Calendar number of a month abbreviation used by the trend (0 for any other name). */
  function MonthNumber(name: string): nat {
    if name == "May" then 5 else if name == "Jun" then 6 else if name == "Jul" then 7
    else if name == "Aug" then 8 else if name == "Sep" then 9 else if name == "Oct" then 10
    else 0
  }

  /** The fixed six-month sample series; it reads no claim data. */
  function GetMonthlyClaimsTrend(): (r: seq<MonthTrend>)
    ensures |r| == 6
    ensures r[0].name == "May" && r[5].name == "Oct"
    ensures forall i, j :: 0 <= i < j < |r| ==> 0 < MonthNumber(r[i].name) < MonthNumber(r[j].name)
  {
    [ MonthTrend("May", 12, 8, 15, 5),
      MonthTrend("Jun", 15, 10, 12, 6),
      MonthTrend("Jul", 18, 12, 18, 4),
      MonthTrend("Aug", 14, 15, 21, 7),
      MonthTrend("Sep", 16, 13, 19, 8),
      MonthTrend("Oct", 18, 11, 17, 6) ]
  }

  // ---------------------------------------------------------------------------
  // Facts about the sample tables

  /** No two sample agents share an e-mail, so a login e-mail names one agent. */
  lemma SampleEmailsDistinct()
    ensures forall i, j :: 0 <= i < j < |SampleAgents| ==> SampleAgents[i].email != SampleAgents[j].email
  {
  }

}
