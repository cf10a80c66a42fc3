/** The repository statistics of `getGitHubProfileStats` (app/lib/github.ts) with every request
    taken out. The answers the function would receive arrive as data: the login of the user
    request, the reply to the contributions query, the pages of the repositories query in the
    order they are requested, and the reply to the workflow-runs request of each repository.
    What remains is the counting: which repositories are maintained, how many there are,
    which of them belong to an organisation, how they are cut into batches of 16 and how the
    settled run counts are added up. Any thrown error makes the whole function return null,
    modelled as `None`. */
module GitHubStats {

  datatype Option<T> = None | Some(value: T)

  /** One node of the repositories connection. */
  datatype Repo = Repo(
    isArchived: bool,
    isFork: bool,
    viewerPermission: string,
    name: string,
    ownerLogin: string,
    isInOrganization: bool)

  /** `{ owner, name }`, the entries of `maintainedReposToCheck`. */
  datatype RepoRef = RepoRef(owner: string, name: string)

  /** One answer of the paginated repositories query: whether it carried GraphQL `errors`,
      its nodes, and `pageInfo.hasNextPage`. */
  datatype ReposPage = ReposPage(hasErrors: bool, nodes: seq<Repo>, hasNextPage: bool)

  /** The answer of the contributions query. */
  datatype ContributionsReply = ContributionsReply(hasErrors: bool, totalContributions: int)

  /** What the workflow-runs request of one repository ends in: the request (or reading its
      body) fails, or a response arrives with its `ok` flag and, when it is a number,
      `total_count`. */
  datatype RunsResponse = RequestFailed | Response(ok: bool, totalCount: Option<int>)

  /** One entry of the array `Promise.allSettled` resolves to. */
  datatype Settled = Rejected | Fulfilled(value: int)

  /** The object the function returns when nothing threw. */
  datatype ProfileStats = ProfileStats(
    username: string,
    currentYearContributions: int,
    maintainedRepositoriesCount: nat,
    actionsRunsTriggeredCount: int)

  /** `batchSize = 16`. */
  const BatchSize: nat := 16

  // ---------------------------------------------------------------------------
  // Maintained repositories
  // ---------------------------------------------------------------------------

  /** `viewerPermission` is ADMIN, MAINTAIN or WRITE. */
  predicate HasMaintainRights(r: Repo)
  {
    r.viewerPermission == "ADMIN" || r.viewerPermission == "MAINTAIN" || r.viewerPermission == "WRITE"
  }

  /** Not archived, not a fork, and maintain rights. */
  predicate IsMaintained(r: Repo)
  {
    !r.isArchived && !r.isFork && HasMaintainRights(r)
  }

  /** A maintained repository whose runs are counted. */
  predicate IsOrgTarget(r: Repo)
  {
    IsMaintained(r) && r.isInOrganization
  }

  function RefOf(r: Repo): RepoRef
  {
    RepoRef(r.ownerLogin, r.name)
  }

  /** The counter after visiting `nodes` in order: one more for every maintained node. */
  function CountMaintained(nodes: seq<Repo>): nat
  {
    if |nodes| == 0 then 0
    else CountMaintained(nodes[..|nodes| - 1]) + (if IsMaintained(nodes[|nodes| - 1]) then 1 else 0)
  }

  /** The list after visiting `nodes` in order: maintained organisation nodes are pushed. */
  function OrgTargets(nodes: seq<Repo>): seq<RepoRef>
  {
    if |nodes| == 0 then []
    else OrgTargets(nodes[..|nodes| - 1]) + (if IsOrgTarget(nodes[|nodes| - 1]) then [RefOf(nodes[|nodes| - 1])] else [])
  }

  /** The positions in `nodes` of the organisation targets, in order. */
  function OrgIndices(nodes: seq<Repo>): seq<nat>
  {
    if |nodes| == 0 then []
    else OrgIndices(nodes[..|nodes| - 1]) + (if IsOrgTarget(nodes[|nodes| - 1]) then [|nodes| - 1] else [])
  }

  /** The nodes of all pages, page after page. */
  function AllNodes(pages: seq<ReposPage>): seq<Repo>
  {
    if |pages| == 0 then [] else AllNodes(pages[..|pages| - 1]) + pages[|pages| - 1].nodes
  }

  // ---------------------------------------------------------------------------
  // Pagination
  // ---------------------------------------------------------------------------

  /** The loop ends normally after reading exactly n pages: none of them carried errors,
      each but the last announced a next page, and the last did not. */
  predicate StopsAfter(pages: seq<ReposPage>, n: nat)
  {
    && 1 <= n <= |pages|
    && (forall k :: 0 <= k < n ==> !pages[k].hasErrors)
    && (forall k :: 0 <= k < n - 1 ==> pages[k].hasNextPage)
    && !pages[n - 1].hasNextPage
  }

  /** How many pages the loop reads before it ends normally, or None when it throws first:
      a page with errors, or a next page that never arrives. */
  function PagesRead(pages: seq<ReposPage>): (r: Option<nat>)
    ensures r.Some? ==> 1 <= r.value <= |pages|
    decreases |pages|
  {
    if |pages| == 0 || pages[0].hasErrors then None
    else if !pages[0].hasNextPage then Some(1)
    else match PagesRead(pages[1..])
      case None => None
      case Some(n) => Some(n + 1)
  }

  /** What the pagination loop produces: the count and the organisation targets of the nodes
      of the pages it read, or None when it threw. */
  datatype Scan = Scan(count: nat, targets: seq<RepoRef>)

  function ScanOf(pages: seq<ReposPage>): Option<Scan>
  {
    match PagesRead(pages)
      case None => None
      case Some(n) => Some(Scan(CountMaintained(AllNodes(pages[..n])), OrgTargets(AllNodes(pages[..n]))))
  }

  // ---------------------------------------------------------------------------
  // Batches and run counts
  // ---------------------------------------------------------------------------

  /** `xs.slice(i, j)` for `0 <= i`: the end is cut back to the length, and a start past the
      end gives the empty list. */
  function Slice<T>(xs: seq<T>, i: nat, j: nat): (r: seq<T>)
    ensures |r| == if i >= |xs| || j <= i then 0 else Min(j, |xs|) - i
    ensures forall k :: 0 <= k < |r| ==> i + k < |xs| && r[k] == xs[i + k]
  {
    if i >= |xs| || j <= i then [] else if j <= |xs| then xs[i..j] else xs[i..]
  }

  /** The batches `slice(i, i + size)` for `i = 0, size, 2 size, ...` while `i < |xs|`. */
  function Batches<T>(xs: seq<T>, size: nat): seq<seq<T>>
    requires size > 0
    decreases |xs|
  {
    if |xs| == 0 then [] else [Slice(xs, 0, size)] + Batches(xs[Min(size, |xs|)..], size)
  }

  function Min(a: nat, b: nat): nat
  {
    if a < b then a else b
  }

  /** The concatenation of a list of lists. */
  function Flatten<T>(xss: seq<seq<T>>): seq<T>
  {
    if |xss| == 0 then [] else xss[0] + Flatten(xss[1..])
  }

  /** The settled result of one repository's request: a failed request rejects; a response
      that is not ok, or whose `total_count` is not a number, fulfils with 0. */
  function Settle(r: RunsResponse): (s: Settled)
    ensures s.Rejected? <==> r.RequestFailed?
    ensures s.Fulfilled? && s.value != 0 ==> r.ok && r.totalCount == Some(s.value)
    ensures r.Response? && r.ok && r.totalCount.Some? ==> s == Fulfilled(r.totalCount.value)
    ensures r.Response? && !(r.ok && r.totalCount.Some?) ==> s == Fulfilled(0)
  {
    match r
      case RequestFailed => Rejected
      case Response(ok, total) =>
        if !ok then Fulfilled(0)
        else match total
          case None => Fulfilled(0)
          case Some(n) => Fulfilled(n)
  }

  /** What one settled result adds to the total: its value when fulfilled, otherwise 0. */
  function Contribution(s: Settled): int
  {
    if s.Fulfilled? then s.value else 0
  }

  /** The reference total: the contributions of all repositories, one after the other,
      without any batching. */
  function TotalRuns(targets: seq<RepoRef>, runs: RepoRef -> RunsResponse): int
  {
    if |targets| == 0 then 0
    else TotalRuns(targets[..|targets| - 1], runs) + Contribution(Settle(runs(targets[|targets| - 1])))
  }

  // ---------------------------------------------------------------------------
  // Lemmas: the maintained predicate, the count and the filter
  // ---------------------------------------------------------------------------

  /** Counting distributes over concatenation, so the count over all pages is the sum of the
      counts of the pages. */
  lemma {:induction false} CountAppend(a: seq<Repo>, b: seq<Repo>)
    ensures CountMaintained(a + b) == CountMaintained(a) + CountMaintained(b)
    decreases |b|
  {
    if |b| > 0 {
      var b' := b[..|b| - 1];
      assert (a + b)[..|a + b| - 1] == a + b';
      assert (a + b)[|a + b| - 1] == b[|b| - 1];
      assert CountMaintained(a + b) == CountMaintained(a + b') + (if IsMaintained(b[|b| - 1]) then 1 else 0);
      CountAppend(a, b');
    } else {
      assert a + b == a;
    }
  }

  /** The count is the number of positions holding a maintained node. */
  lemma {:induction false} CountIsCardinality(nodes: seq<Repo>)
    ensures CountMaintained(nodes) == |set i | 0 <= i < |nodes| && IsMaintained(nodes[i])|
    decreases |nodes|
  {
    if |nodes| > 0 {
      var init := nodes[..|nodes| - 1];
      var last := |nodes| - 1;
      CountIsCardinality(init);
      var before := set i | 0 <= i < |init| && IsMaintained(init[i]);
      var now := set i | 0 <= i < |nodes| && IsMaintained(nodes[i]);
      if IsMaintained(nodes[last]) {
        assert now == before + {last};
      } else {
        assert now == before;
      }
    }
  }

  /** Filtering distributes over concatenation. */
  lemma {:induction false} OrgTargetsAppend(a: seq<Repo>, b: seq<Repo>)
    ensures OrgTargets(a + b) == OrgTargets(a) + OrgTargets(b)
    decreases |b|
  {
    if |b| > 0 {
      var b' := b[..|b| - 1];
      assert (a + b)[..|a + b| - 1] == a + b';
      assert (a + b)[|a + b| - 1] == b[|b| - 1];
      assert OrgTargets(a + b) == OrgTargets(a + b') + (if IsOrgTarget(b[|b| - 1]) then [RefOf(b[|b| - 1])] else []);
      OrgTargetsAppend(a, b');
    } else {
      assert a + b == a;
    }
  }

  /** Every organisation target is also counted, so there are never more targets than
      maintained repositories. */
  lemma {:induction false} OrgTargetsWithinCount(nodes: seq<Repo>)
    ensures |OrgTargets(nodes)| <= CountMaintained(nodes)
    decreases |nodes|
  {
    if |nodes| > 0 {
      OrgTargetsWithinCount(nodes[..|nodes| - 1]);
    }
  }

  /** Entry k of the targets is the node at position `OrgIndices(nodes)[k]`, and that node is
      a maintained organisation repository. */
  lemma {:induction false} OrgIndicesSound(nodes: seq<Repo>)
    ensures |OrgTargets(nodes)| == |OrgIndices(nodes)|
    ensures forall k :: 0 <= k < |OrgIndices(nodes)| ==>
              OrgIndices(nodes)[k] < |nodes|
              && IsOrgTarget(nodes[OrgIndices(nodes)[k]])
              && OrgTargets(nodes)[k] == RefOf(nodes[OrgIndices(nodes)[k]])
    decreases |nodes|
  {
    if |nodes| > 0 {
      var init := nodes[..|nodes| - 1];
      OrgIndicesSound(init);
      var idx, tgt := OrgIndices(init), OrgTargets(init);
      forall k | 0 <= k < |idx|
        ensures OrgIndices(nodes)[k] == idx[k] && OrgTargets(nodes)[k] == tgt[k]
        ensures nodes[idx[k]] == init[idx[k]]
      {
      }
    }
  }

  /** The positions increase: the targets keep the order of the nodes. */
  lemma {:induction false} OrgIndicesIncreasing(nodes: seq<Repo>)
    ensures forall k :: 0 <= k < |OrgIndices(nodes)| ==> OrgIndices(nodes)[k] < |nodes|
    ensures forall k, l :: 0 <= k < l < |OrgIndices(nodes)| ==> OrgIndices(nodes)[k] < OrgIndices(nodes)[l]
    decreases |nodes|
  {
    if |nodes| > 0 {
      OrgIndicesIncreasing(nodes[..|nodes| - 1]);
    }
  }

  /** No maintained organisation repository is left out. */
  lemma {:induction false} OrgIndicesComplete(nodes: seq<Repo>)
    ensures forall i :: 0 <= i < |nodes| && IsOrgTarget(nodes[i]) ==> i in OrgIndices(nodes)
    decreases |nodes|
  {
    if |nodes| > 0 {
      var init := nodes[..|nodes| - 1];
      OrgIndicesComplete(init);
      forall i | 0 <= i < |init| ensures init[i] == nodes[i] { }
    }
  }

  /** The organisation targets are an order-preserving subsequence of the nodes: entry k is
      the node at position `OrgIndices(nodes)[k]`, those positions increase, each holds a
      maintained organisation repository, and every such position is among them. */
  lemma OrgTargetsSubsequence(nodes: seq<Repo>)
    ensures |OrgTargets(nodes)| == |OrgIndices(nodes)|
    ensures forall k :: 0 <= k < |OrgIndices(nodes)| ==>
              OrgIndices(nodes)[k] < |nodes|
              && IsOrgTarget(nodes[OrgIndices(nodes)[k]])
              && OrgTargets(nodes)[k] == RefOf(nodes[OrgIndices(nodes)[k]])
    ensures forall k, l :: 0 <= k < l < |OrgIndices(nodes)| ==> OrgIndices(nodes)[k] < OrgIndices(nodes)[l]
    ensures forall i :: 0 <= i < |nodes| && IsOrgTarget(nodes[i]) ==> i in OrgIndices(nodes)
  {
    OrgIndicesSound(nodes);
    OrgIndicesIncreasing(nodes);
    OrgIndicesComplete(nodes);
  }

  // ---------------------------------------------------------------------------
  // Lemmas: pagination
  // ---------------------------------------------------------------------------

  /** The loop ends normally after n pages exactly when `PagesRead` says n. */
  lemma {:induction false} PagesReadStops(pages: seq<ReposPage>, n: nat)
    ensures PagesRead(pages) == Some(n) <==> StopsAfter(pages, n)
    decreases |pages|
  {
    if |pages| > 0 && !pages[0].hasErrors && pages[0].hasNextPage {
      var rest := pages[1..];
      if n >= 2 {
        PagesReadStops(rest, n - 1);
        if StopsAfter(pages, n) {
          assert forall k :: 0 <= k < n - 1 ==> !rest[k].hasErrors by {
            forall k | 0 <= k < n - 1 ensures !rest[k].hasErrors { assert rest[k] == pages[k + 1]; }
          }
          assert forall k :: 0 <= k < n - 2 ==> rest[k].hasNextPage by {
            forall k | 0 <= k < n - 2 ensures rest[k].hasNextPage { assert rest[k] == pages[k + 1]; }
          }
          assert StopsAfter(rest, n - 1);
        }
        if StopsAfter(rest, n - 1) {
          assert forall k :: 0 <= k < n ==> !pages[k].hasErrors by {
            forall k | 0 <= k < n ensures !pages[k].hasErrors {
              if k > 0 { assert pages[k] == rest[k - 1]; }
            }
          }
          assert forall k :: 0 <= k < n - 1 ==> pages[k].hasNextPage by {
            forall k | 0 <= k < n - 1 ensures pages[k].hasNextPage {
              if k > 0 { assert pages[k] == rest[k - 1]; }
            }
          }
          assert StopsAfter(pages, n);
        }
      } else {
        match PagesRead(rest) {
          case None =>
          case Some(n') => PagesReadStops(rest, n');
        }
      }
    }
  }

  /** The count over the pages read is the sum of the per-page counts. */
  lemma {:induction false} AllNodesAppend(pages: seq<ReposPage>, page: ReposPage)
    ensures AllNodes(pages + [page]) == AllNodes(pages) + page.nodes
  {
    assert (pages + [page])[..|pages|] == pages;
  }

  // ---------------------------------------------------------------------------
  // Lemmas: batches and sums
  // ---------------------------------------------------------------------------

  lemma {:induction false} FlattenAppend<T>(a: seq<seq<T>>, b: seq<seq<T>>)
    ensures Flatten(a + b) == Flatten(a) + Flatten(b)
    decreases |a|
  {
    if |a| > 0 {
      assert (a + b)[0] == a[0];
      assert (a + b)[1..] == a[1..] + b;
      FlattenAppend(a[1..], b);
    } else {
      assert a + b == b;
    }
  }

  /** The batches partition the list: concatenated they give it back in order, each holds
      between 1 and `size` elements, and all but the last hold exactly `size`. */
  lemma {:induction false} BatchesPartition<T>(xs: seq<T>, size: nat)
    requires size > 0
    ensures Flatten(Batches(xs, size)) == xs
    ensures forall b :: 0 <= b < |Batches(xs, size)| ==> 1 <= |Batches(xs, size)[b]| <= size
    ensures forall b :: 0 <= b < |Batches(xs, size)| - 1 ==> |Batches(xs, size)[b]| == size
    decreases |xs|
  {
    if |xs| > 0 {
      var n := Min(size, |xs|);
      BatchesPartition(xs[n..], size);
      assert Slice(xs, 0, size) == xs[..n];
      assert xs[..n] + xs[n..] == xs;
    }
  }

  /** The number of batches is `ceil(|xs| / size)`. */
  lemma {:induction false} BatchesCount<T>(xs: seq<T>, size: nat)
    requires size > 0
    ensures |Batches(xs, size)| == (|xs| + size - 1) / size
    decreases |xs|
  {
    var len := |xs|;
    if len == 0 {
      DivSmall(size - 1, size);
    } else if len <= size {
      DivSmall(len - 1, size);
      DivStep(len - 1, size);
    } else {
      BatchesCount(xs[size..], size);
      DivStep(len - 1, size);
    }
  }

  /** `x / s == 0` for `0 <= x < s`. */
  lemma DivSmall(x: int, s: int)
    requires 0 <= x < s
    ensures x / s == 0
  {
    var q, r := x / s, x % s;
    assert x == s * q + r;
    MultipleBelow(s, q, x - r);
  }

  /** `(x + s) / s == x / s + 1`. */
  lemma DivStep(x: int, s: int)
    requires s > 0 && x >= 0
    ensures (x + s) / s == x / s + 1
  {
    var q, r := x / s, x % s;
    var q', r' := (x + s) / s, (x + s) % s;
    assert s * (q' - q - 1) == r - r' by {
      assert x == s * q + r;
      assert x + s == s * q' + r';
    }
    MultipleBelow(s, q' - q - 1, r - r');
  }

  /** The only multiple of s strictly between -s and s is 0. */
  lemma MultipleBelow(s: int, k: int, t: int)
    requires s > 0 && t == s * k && -s < t < s
    ensures k == 0
  {
    if k >= 1 {
      MultipleAtLeast(s, k, t);
    } else if k <= -1 {
      MultipleAtLeast(s, -k, -t);
    }
  }

  lemma MultipleAtLeast(s: int, k: int, t: int)
    requires s > 0 && k >= 1 && t == s * k
    ensures t >= s
  {
    assert t == s + s * (k - 1);
    assert s * (k - 1) >= 0;
  }

  /** Totals distribute over concatenation, so summing batch after batch gives the
      reference total. */
  lemma {:induction false} TotalRunsAppend(a: seq<RepoRef>, b: seq<RepoRef>, runs: RepoRef -> RunsResponse)
    ensures TotalRuns(a + b, runs) == TotalRuns(a, runs) + TotalRuns(b, runs)
    decreases |b|
  {
    if |b| > 0 {
      var b' := b[..|b| - 1];
      assert (a + b)[..|a + b| - 1] == a + b';
      assert (a + b)[|a + b| - 1] == b[|b| - 1];
      assert TotalRuns(a + b, runs) == TotalRuns(a + b', runs) + Contribution(Settle(runs(b[|b| - 1])));
      TotalRunsAppend(a, b', runs);
    } else {
      assert a + b == a;
    }
  }

  /** Rejected, not-ok and non-numeric results add nothing, so with nonnegative run counts
      the total is nonnegative. */
  lemma {:induction false} TotalRunsNonnegative(targets: seq<RepoRef>, runs: RepoRef -> RunsResponse)
    requires forall t :: t in targets && runs(t).Response? && runs(t).totalCount.Some? ==> runs(t).totalCount.value >= 0
    ensures TotalRuns(targets, runs) >= 0
    decreases |targets|
  {
    if |targets| > 0 {
      var init := targets[..|targets| - 1];
      assert forall t :: t in init ==> t in targets;
      TotalRunsNonnegative(init, runs);
    }
  }

  /** When every request fails, nothing is counted. */
  lemma {:induction false} AllRejectedCountsZero(targets: seq<RepoRef>, runs: RepoRef -> RunsResponse)
    requires forall t :: t in targets ==> runs(t).RequestFailed?
    ensures TotalRuns(targets, runs) == 0
    decreases |targets|
  {
    if |targets| > 0 {
      var init := targets[..|targets| - 1];
      assert forall t :: t in init ==> t in targets;
      AllRejectedCountsZero(init, runs);
    }
  }

  // ---------------------------------------------------------------------------
  // The loops of the function
  // ---------------------------------------------------------------------------

  /** The node loop of one page: bump the counter for every maintained node and push the
      maintained organisation nodes. */
  method VisitNodes(count0: nat, targets0: seq<RepoRef>, nodes: seq<Repo>)
    returns (count: nat, targets: seq<RepoRef>)
    ensures count == count0 + CountMaintained(nodes)
    ensures targets == targets0 + OrgTargets(nodes)
  {
    count, targets := count0, targets0;
    var j := 0;
    while j < |nodes|
      invariant 0 <= j <= |nodes|
      invariant count == count0 + CountMaintained(nodes[..j])
      invariant targets == targets0 + OrgTargets(nodes[..j])
    {
      var repo := nodes[j];
      assert nodes[..j + 1][..j] == nodes[..j];
      if IsMaintained(repo) {
        count := count + 1;
        if repo.isInOrganization {
          targets := targets + [RefOf(repo)];
        }
      }
      j := j + 1;
    }
    assert nodes[..j] == nodes;
  }

  /** The pagination loop: read pages while the last one announced a next page; a page with
      errors, or a page that never arrives, throws. */
  method ScanPages(pages: seq<ReposPage>) returns (outcome: Option<Scan>)
    ensures outcome == ScanOf(pages)
  {
    var count: nat := 0;
    var targets: seq<RepoRef> := [];
    var hasNextPage := true;
    var k := 0;
    while hasNextPage
      invariant 0 <= k <= |pages|
      invariant forall j :: 0 <= j < k ==> !pages[j].hasErrors
      invariant forall j :: 0 <= j < k - 1 ==> pages[j].hasNextPage
      invariant hasNextPage ==> forall j :: 0 <= j < k ==> pages[j].hasNextPage
      invariant !hasNextPage ==> k >= 1 && !pages[k - 1].hasNextPage
      invariant count == CountMaintained(AllNodes(pages[..k]))
      invariant targets == OrgTargets(AllNodes(pages[..k]))
      decreases |pages| - k
    {
      if k == |pages| || pages[k].hasErrors {
        NeverStops(pages, k);
        return None;
      }
      var page := pages[k];
      count, targets := VisitNodes(count, targets, page.nodes);
      assert pages[..k + 1] == pages[..k] + [page];
      AllNodesAppend(pages[..k], page);
      CountAppend(AllNodes(pages[..k]), page.nodes);
      OrgTargetsAppend(AllNodes(pages[..k]), page.nodes);
      hasNextPage := page.hasNextPage;
      k := k + 1;
    }
    assert StopsAfter(pages, k);
    PagesReadStops(pages, k);
    return Some(Scan(count, targets));
  }

  /** Every page before k announced a next page, and page k is missing or carries errors:
      the loop cannot end normally. */
  lemma NeverStops(pages: seq<ReposPage>, k: nat)
    requires k <= |pages|
    requires forall j :: 0 <= j < k ==> pages[j].hasNextPage
    requires k == |pages| || pages[k].hasErrors
    ensures PagesRead(pages).None?
  {
    if PagesRead(pages).Some? {
      var n := PagesRead(pages).value;
      PagesReadStops(pages, n);
    }
  }

  /** Cutting the first batch off the suffix starting at i leaves the suffix starting at
      `i + size`, or nothing. */
  lemma BatchStep<T>(xs: seq<T>, i: nat, size: nat)
    requires i < |xs| && size > 0
    ensures Batches(xs[i..], size) == [Slice(xs, i, i + size)] + Batches(xs[Min(i + size, |xs|)..], size)
  {
    var rest := xs[i..];
    assert Slice(rest, 0, size) == Slice(xs, i, i + size);
    assert rest[Min(size, |rest|)..] == xs[Min(i + size, |xs|)..];
  }

  /** `maintainedReposToCheck.slice(i, i + 16)` for `i = 0, 16, 32, ...`. */
  method SliceBatches<T>(xs: seq<T>) returns (batches: seq<seq<T>>)
    ensures batches == Batches(xs, BatchSize)
  {
    batches := [];
    var i := 0;
    while i < |xs|
      invariant batches + Batches(xs[Min(i, |xs|)..], BatchSize) == Batches(xs, BatchSize)
      decreases |xs| - i
    {
      var batch := Slice(xs, i, i + BatchSize);
      BatchStep(xs, i, BatchSize);
      batches := batches + [batch];
      i := i + BatchSize;
    }
  }

  /** One batch: settle every request of the batch, then add the value of every fulfilled
      result. */
  method SumBatch(batch: seq<RepoRef>, runs: RepoRef -> RunsResponse) returns (batchTotal: int)
    ensures batchTotal == TotalRuns(batch, runs)
  {
    var results := seq(|batch|, j requires 0 <= j < |batch| => Settle(runs(batch[j])));
    batchTotal := 0;
    var j := 0;
    while j < |results|
      invariant 0 <= j <= |results|
      invariant batchTotal == TotalRuns(batch[..j], runs)
    {
      assert batch[..j + 1][..j] == batch[..j];
      if results[j].Fulfilled? {
        batchTotal := batchTotal + results[j].value;
      }
      j := j + 1;
    }
    assert batch[..j] == batch;
  }

  /** The run-count loop: one batch at a time, add the value of every fulfilled result. */
  method SumRuns(targets: seq<RepoRef>, runs: RepoRef -> RunsResponse) returns (total: int)
    ensures total == TotalRuns(targets, runs)
  {
    var batches := SliceBatches(targets);
    BatchesPartition(targets, BatchSize);
    total := 0;
    var b := 0;
    while b < |batches|
      invariant 0 <= b <= |batches|
      invariant total == TotalRuns(Flatten(batches[..b]), runs)
    {
      var batch := batches[b];
      var batchTotal := SumBatch(batch, runs);
      assert batches[..b + 1] == batches[..b] + [batch];
      FlattenAppend(batches[..b], [batch]);
      assert Flatten([batch]) == batch;
      TotalRunsAppend(Flatten(batches[..b]), batch, runs);
      total := total + batchTotal;
      b := b + 1;
    }
    assert batches[..b] == batches;
  }

  // ---------------------------------------------------------------------------
  // The whole function
  // ---------------------------------------------------------------------------

  /** `getGitHubProfileStats` over the answers it would receive. `login` is None when the
      user request fails and `contributions` is None when the contributions request fails.
      The result is None (null) exactly when something throws: the user request, a
      repositories page with errors or missing, or the contributions request failing or
      carrying errors. Failed workflow-run requests never throw; they only count 0. */
  method GetProfileStats(
    login: Option<string>,
    contributions: Option<ContributionsReply>,
    pages: seq<ReposPage>,
    runs: RepoRef -> RunsResponse)
    returns (r: Option<ProfileStats>)
    ensures r.Some? <==>
              login.Some? && PagesRead(pages).Some? && contributions.Some? && !contributions.value.hasErrors
    ensures r.Some? ==>
              var n := PagesRead(pages).value;
              var nodes := AllNodes(pages[..n]);
              r.value == ProfileStats(login.value, contributions.value.totalContributions,
                                         CountMaintained(nodes), TotalRuns(OrgTargets(nodes), runs))
  {
    if login.None? {
      return None;
    }
    var scan := ScanPages(pages);
    if scan.None? {
      return None;
    }
    var n := PagesRead(pages).value;
    PagesReadStops(pages, n);
    var runsCount := SumRuns(scan.value.targets, runs);
    if contributions.None? || contributions.value.hasErrors {
      return None;
    }
    return Some(ProfileStats(login.value, contributions.value.totalContributions, scan.value.count, runsCount));
  }

  /** With nonnegative run counts the returned statistics satisfy
      `0 <= actionsRunsTriggeredCount` and the number of repositories whose runs were
      requested never exceeds `maintainedRepositoriesCount`. */
  lemma StatsBounds(pages: seq<ReposPage>, runs: RepoRef -> RunsResponse)
    requires ScanOf(pages).Some?
    requires forall t :: runs(t).Response? && runs(t).totalCount.Some? ==> runs(t).totalCount.value >= 0
    ensures |ScanOf(pages).value.targets| <= ScanOf(pages).value.count
    ensures TotalRuns(ScanOf(pages).value.targets, runs) >= 0
  {
    var n := PagesRead(pages).value;
    OrgTargetsWithinCount(AllNodes(pages[..n]));
    TotalRunsNonnegative(ScanOf(pages).value.targets, runs);
  }
}
