/** Cursor pagination over an array of nodes; the id of a node is its cursor. */
module Connections {
  import opened Calculator
  import opened Outcomes

  datatype Node<T> = Node(id: string, value: T)

  /** A missing cursor is None. The empty string is falsy, so it selects nothing, but it
      is not a missing one. */
  datatype Args = Args(after: Option<string>, before: Option<string>, first: Option<int>, last: Option<int>)

  datatype Connection<T> = Connection(
    edges: seq<Node<T>>, startCursor: Option<string>, endCursor: Option<string>, hasPreviousPage: bool,
    hasNextPage: bool)

  datatype PageResult<T> = Page(connection: Connection<T>) | NegativeArgument

  /** Array.findIndex by id, from position k on: the first match, or -1. */
  function FindFrom<T>(nodes: seq<Node<T>>, id: string, k: nat): (i: int)
    requires k <= |nodes|
    ensures i == -1 || (k <= i < |nodes| && nodes[i].id == id)
    ensures forall j :: k <= j < (if i == -1 then |nodes| else i) ==> nodes[j].id != id
    decreases |nodes| - k
  {
    if k == |nodes| then -1 else if nodes[k].id == id then k else FindFrom(nodes, id, k + 1)
  }

  function FindIndex<T>(nodes: seq<Node<T>>, id: string): (i: int)
    ensures -1 <= i < |nodes|
  {
    FindFrom(nodes, id, 0)
  }

  /** Array.slice for bounds that are not negative. */
  function Slice<T>(nodes: seq<T>, start: nat, end: nat): seq<T> {
    if start <= end <= |nodes| then nodes[start..end]
    else if start <= |nodes| < end then nodes[start..]
    else []
  }

  // ----- the reference: section 4.4 of the GraphQL Cursor Connections Specification

  function ApplyAfter<T>(nodes: seq<Node<T>>, after: Option<string>): seq<Node<T>> {
    if after.Some? && FindIndex(nodes, after.value) >= 0 then nodes[FindIndex(nodes, after.value) + 1..] else nodes
  }

  function ApplyBefore<T>(edges: seq<Node<T>>, before: Option<string>): seq<Node<T>> {
    if before.Some? && FindIndex(edges, before.value) >= 0 then edges[..FindIndex(edges, before.value)] else edges
  }

  function ApplyFirst<T>(edges: seq<Node<T>>, first: Option<int>): seq<Node<T>>
    requires first.Some? ==> first.value >= 0
  {
    if first.Some? && |edges| > first.value then edges[..first.value] else edges
  }

  function ApplyLast<T>(edges: seq<Node<T>>, last: Option<int>): seq<Node<T>>
    requires last.Some? ==> last.value >= 0
  {
    if last.Some? && |edges| > last.value then edges[|edges| - last.value..] else edges
  }

  predicate NonNegative(args: Args) {
    (args.first.Some? ==> args.first.value >= 0) && (args.last.Some? ==> args.last.value >= 0)
  }

  function EdgesToReturn<T>(nodes: seq<Node<T>>, args: Args): seq<Node<T>>
    requires NonNegative(args)
  {
    ApplyLast(ApplyFirst(ApplyBefore(ApplyAfter(nodes, args.after), args.before), args.first), args.last)
  }

  // ----- the offsets, as the source computes them

  /** The position that a cursor selects; an empty or missing one selects nothing. */
  function CursorOffset<T>(nodes: seq<Node<T>>, cursor: Option<string>, missing: int): (i: int)
    ensures -1 <= i < |nodes| || i == missing
  {
    if cursor.Some? && cursor.value != "" then FindIndex(nodes, cursor.value) else missing
  }

  /** Half-open range of positions. */
  datatype Range = Range(start: nat, end: nat)

  /** Where the cursors at positions a and b leave the page, among n nodes. */
  function CursorRange(a: int, b: int, n: nat): (r: Range)
    requires -1 <= a < n && -1 <= b <= n
    ensures r.start <= n && r.end <= n
  {
    Range(a + 1, if b == -1 then n else b)
  }

  function Limited(r: Range, first: Option<int>, last: Option<int>): Range
    requires (first.Some? ==> first.value >= 0) && (last.Some? ==> last.value >= 0)
  {
    var end := if first.Some? then Min(r.end, r.start + first.value) else r.end;
    var start := if last.Some? then Max(r.start, end - last.value) else r.start;
    Range(start, end)
  }

  function CutOff<T>(nodes: seq<Node<T>>, args: Args): (r: Range)
    ensures r.start <= |nodes| && r.end <= |nodes|
  {
    CursorRange(CursorOffset(nodes, args.after, -1), CursorOffset(nodes, args.before, |nodes|), |nodes|)
  }

  ghost predicate DistinctIds<T>(nodes: seq<Node<T>>) {
    && (forall i :: 0 <= i < |nodes| ==> nodes[i].id != "")
    && (forall i, j :: 0 <= i < j < |nodes| ==> nodes[i].id != nodes[j].id)
  }

  /** The connection that holds a range of the nodes. */
  function PageOf<T>(nodes: seq<Node<T>>, r: Range, hasPreviousPage: bool, hasNextPage: bool): Connection<T> {
    var edges := Slice(nodes, r.start, r.end);
    Connection(
      edges,
      if edges != [] then Some(edges[0].id) else None,
      if edges != [] then Some(edges[|edges| - 1].id) else None,
      hasPreviousPage,
      hasNextPage)
  }

  /** The connection that a call returns. */
  function ConnectionOf<T>(nodes: seq<Node<T>>, args: Args): Connection<T>
    requires NonNegative(args)
  {
    var r := Limited(CutOff(nodes, args), args.first, args.last);
    PageOf(
      nodes, r,
      args.last.Some? && r.start > CursorOffset(nodes, args.after, -1) + 1,
      args.first.Some? && r.end < CursorOffset(nodes, args.before, |nodes|))
  }

  /** The range of the page, narrowed step by step; None where the source throws. */
  method PageRange(afterOffset: int, beforeOffset: int, n: nat, first: Option<int>, last: Option<int>)
    returns (r: Option<Range>)
    requires -1 <= afterOffset < n && -1 <= beforeOffset <= n
    ensures r.None? <==> (first.Some? && first.value < 0) || (last.Some? && last.value < 0)
    ensures r.Some? ==> r.value == Limited(CursorRange(afterOffset, beforeOffset, n), first, last)
  {
    var startOffset, endOffset := 0, n;
    if 0 <= afterOffset < n { startOffset := Max(startOffset, afterOffset + 1); }
    if 0 <= beforeOffset < n { endOffset := Min(endOffset, beforeOffset); }
    if first.Some? {
      if first.value < 0 { return None; }
      endOffset := Min(endOffset, startOffset + first.value);
    }
    if last.Some? {
      if last.value < 0 { return None; }
      startOffset := Max(startOffset, endOffset - last.value);
    }
    r := Some(Range(startOffset, endOffset));
  }

  method ConnectionFromArray<T>(nodes: seq<Node<T>>, args: Args) returns (r: PageResult<T>)
    ensures r.NegativeArgument? <==> !NonNegative(args)
    ensures r.Page? ==> r.connection == ConnectionOf(nodes, args)
  {
    var afterOffset := CursorOffset(nodes, args.after, -1);
    var beforeOffset := CursorOffset(nodes, args.before, |nodes|);
    var range := PageRange(afterOffset, beforeOffset, |nodes|, args.first, args.last);
    if range.None? { return NegativeArgument; }
    var edges := Slice(nodes, range.value.start, range.value.end);
    var startCursor, endCursor := None, None;
    if edges != [] { startCursor, endCursor := Some(edges[0].id), Some(edges[|edges| - 1].id); }
    var lowerBound := if args.after.Some? then afterOffset + 1 else 0;
    var upperBound := if args.before.Some? then beforeOffset else |nodes|;
    r := Page(Connection(
      edges, startCursor, endCursor,
      args.last.Some? && range.value.start > lowerBound,
      args.first.Some? && range.value.end < upperBound));
  }

  // ----- agreement with the specification

  /** Both cursors are found, and the one to stop before is not after the other. */
  ghost predicate Crossing<T>(nodes: seq<Node<T>>, args: Args) {
    && args.after.Some? && args.before.Some?
    && 0 <= FindIndex(nodes, args.before.value) <= FindIndex(nodes, args.after.value)
  }

  lemma FindUnique<T>(nodes: seq<Node<T>>, k: nat)
    requires DistinctIds(nodes) && k < |nodes|
    ensures FindIndex(nodes, nodes[k].id) == k
  {
  }

  lemma EmptyCursorNotFound<T>(nodes: seq<Node<T>>)
    requires DistinctIds(nodes)
    ensures FindIndex(nodes, "") == -1
  {
  }

  /** The search in a suffix finds what the search in the whole finds there, and only that. */
  lemma FindInSuffix<T>(nodes: seq<Node<T>>, id: string, k: nat)
    requires DistinctIds(nodes) && k <= |nodes|
    ensures FindIndex(nodes[k..], id) == (if FindIndex(nodes, id) >= k then FindIndex(nodes, id) - k else -1)
  {
    var i, j := FindIndex(nodes, id), FindIndex(nodes[k..], id);
    if i >= k { assert nodes[k..][i - k].id == id; }
    if j >= 0 { assert nodes[k..][j] == nodes[k + j]; FindUnique(nodes, k + j); }
  }

  lemma SliceOfSlice<T>(s: seq<T>, i: nat, j: nat, m: nat, n: nat)
    requires i <= j <= |s| && m <= n <= j - i
    ensures s[i..j][m..n] == s[i + m..i + n]
  {
    var slice := s[i..j];
    forall k | 0 <= k < n - m ensures slice[m..n][k] == s[i + m..i + n][k] {
      assert slice[m + k] == s[i + m + k];
    }
  }

  lemma AfterAgrees<T>(nodes: seq<Node<T>>, args: Args)
    requires DistinctIds(nodes)
    ensures ApplyAfter(nodes, args.after) == nodes[CutOff(nodes, args).start..]
  {
    EmptyCursorNotFound(nodes);
    assert nodes[0..] == nodes;
  }

  /** Without crossing, the two cursors cut out the same range as in the specification. */
  lemma CursorsAgree<T>(nodes: seq<Node<T>>, args: Args)
    requires DistinctIds(nodes) && !Crossing(nodes, args)
    ensures var r := CutOff(nodes, args);
            && r.start <= r.end
            && ApplyBefore(ApplyAfter(nodes, args.after), args.before) == nodes[r.start..r.end]
  {
    EmptyCursorNotFound(nodes);
    AfterAgrees(nodes, args);
    var r := CutOff(nodes, args);
    var rest := nodes[r.start..];
    assert r.start <= r.end;
    if args.before.Some? {
      FindInSuffix(nodes, args.before.value, r.start);
      var b := FindIndex(rest, args.before.value);
      if b >= 0 {
        assert rest == nodes[r.start..|nodes|];
        SliceOfSlice(nodes, r.start, |nodes|, 0, b);
        assert rest[..b] == rest[0..b];
      }
    }
  }

  lemma FirstAgrees<T>(nodes: seq<Node<T>>, r: Range, first: Option<int>)
    requires r.start <= r.end <= |nodes| && (first.Some? ==> first.value >= 0)
    ensures ApplyFirst(nodes[r.start..r.end], first) == nodes[r.start..Limited(r, first, None).end]
  {
    var edges := nodes[r.start..r.end];
    if first.Some? && |edges| > first.value {
      SliceOfSlice(nodes, r.start, r.end, 0, first.value);
      assert edges[..first.value] == edges[0..first.value];
    }
  }

  lemma LastAgrees<T>(nodes: seq<Node<T>>, start: nat, end: nat, last: Option<int>)
    requires start <= end <= |nodes| && (last.Some? ==> last.value >= 0)
    ensures ApplyLast(nodes[start..end], last) == nodes[Limited(Range(start, end), None, last).start..end]
  {
    var edges := nodes[start..end];
    if last.Some? && |edges| > last.value {
      SliceOfSlice(nodes, start, end, |edges| - last.value, |edges|);
      assert edges[|edges| - last.value..] == edges[|edges| - last.value..|edges|];
    }
  }

  lemma FirstLastAgree<T>(nodes: seq<Node<T>>, r: Range, first: Option<int>, last: Option<int>)
    requires r.start <= r.end <= |nodes|
    requires (first.Some? ==> first.value >= 0) && (last.Some? ==> last.value >= 0)
    ensures var l := Limited(r, first, last);
            Slice(nodes, l.start, l.end) == ApplyLast(ApplyFirst(nodes[r.start..r.end], first), last)
  {
    FirstAgrees(nodes, r, first);
    LastAgrees(nodes, r.start, Limited(r, first, None).end, last);
  }

  lemma CrossingPageEmpty<T>(nodes: seq<Node<T>>, args: Args)
    requires DistinctIds(nodes) && NonNegative(args) && Crossing(nodes, args)
    ensures ConnectionOf(nodes, args).edges == []
  {
    EmptyCursorNotFound(nodes);
    assert CutOff(nodes, args).end < CutOff(nodes, args).start;
  }

  /** When cursors cross, the page is empty, while the specification no longer finds the
      second cursor and ignores it. */
  lemma CrossingPages<T>(nodes: seq<Node<T>>, args: Args)
    requires DistinctIds(nodes) && NonNegative(args) && Crossing(nodes, args)
    ensures ConnectionOf(nodes, args).edges == []
    ensures EdgesToReturn(nodes, args) == [] <==>
      FindIndex(nodes, args.after.value) == |nodes| - 1 || args.first == Some(0) || args.last == Some(0)
  {
    CrossingPageEmpty(nodes, args);
    var rest := nodes[FindIndex(nodes, args.after.value) + 1..];
    FindInSuffix(nodes, args.before.value, FindIndex(nodes, args.after.value) + 1);
    assert ApplyBefore(ApplyAfter(nodes, args.after), args.before) == rest;
  }

  /** The edges are those of the specification exactly when the cursors do not cross,
      or the specification's page is empty as well. */
  lemma AgreesWithSpecificationIff<T>(nodes: seq<Node<T>>, args: Args)
    requires DistinctIds(nodes) && NonNegative(args)
    ensures ConnectionOf(nodes, args).edges == EdgesToReturn(nodes, args) <==>
      || !Crossing(nodes, args)
      || FindIndex(nodes, args.after.value) == |nodes| - 1 || args.first == Some(0) || args.last == Some(0)
  {
    if Crossing(nodes, args) {
      CrossingPages(nodes, args);
    } else {
      CursorsAgree(nodes, args);
      FirstLastAgree(nodes, CutOff(nodes, args), args.first, args.last);
    }
  }

  /** The cursor to stop before is given and selects no node. */
  ghost predicate BeforeNotFound<T>(nodes: seq<Node<T>>, args: Args) {
    args.before.Some? && args.before.value != "" && forall i :: 0 <= i < |nodes| ==> nodes[i].id != args.before.value
  }

  /** There is a previous page if `last` cuts something off, after `first` did, and a next
      page if `first` does, but never before a cursor that is not found. */
  lemma PageFlags<T>(nodes: seq<Node<T>>, args: Args)
    requires DistinctIds(nodes) && NonNegative(args) && !Crossing(nodes, args)
    ensures var page, n := ConnectionOf(nodes, args), |ApplyBefore(ApplyAfter(nodes, args.after), args.before)|;
            && (page.hasPreviousPage <==>
                  args.last.Some? && (if args.first.Some? then Min(n, args.first.value) else n) > args.last.value)
            && (page.hasNextPage <==> args.first.Some? && n > args.first.value && !BeforeNotFound(nodes, args))
  {
    CursorsAgree(nodes, args);
    EmptyCursorNotFound(nodes);
  }

  /** The GraphQL Cursor Connections Specification asks for a previous page if `last` is set
      and the cursors leave more, and for a next page if `first` is set and they leave more.
      The former is missed exactly when `first` leaves no more than `last`, the latter
      exactly for a cursor that is not found. */
  lemma FlagsAgreeIff<T>(nodes: seq<Node<T>>, args: Args)
    requires DistinctIds(nodes) && NonNegative(args) && !Crossing(nodes, args)
    ensures var page, n := ConnectionOf(nodes, args), |ApplyBefore(ApplyAfter(nodes, args.after), args.before)|;
            var previous, next := args.last.Some? && n > args.last.value, args.first.Some? && n > args.first.value;
            && (page.hasPreviousPage == previous <==>
                  !(previous && args.first.Some? && args.first.value <= args.last.value))
            && (page.hasNextPage == next <==> !(next && BeforeNotFound(nodes, args)))
  {
    PageFlags(nodes, args);
  }

  // ----- following the cursors

  /** The cursor of the last node before position k, and of the first one from k on. */
  function After<T>(nodes: seq<Node<T>>, k: nat): Option<string>
    requires k <= |nodes|
  {
    if k == 0 then None else Some(nodes[k - 1].id)
  }

  function Before<T>(nodes: seq<Node<T>>, k: nat): Option<string>
    requires k <= |nodes|
  {
    if k == |nodes| then None else Some(nodes[k].id)
  }

  ghost predicate IsForwardPage<T>(nodes: seq<Node<T>>, k: nat, first: nat, page: Connection<T>)
    requires k <= |nodes|
  {
    && page.edges == nodes[k..Min(k + first, |nodes|)]
    && (page.hasNextPage <==> k + first < |nodes|)
    && (page.hasNextPage && first > 0 ==> page.endCursor == After(nodes, k + first))
  }

  ghost predicate IsBackwardPage<T>(nodes: seq<Node<T>>, k: nat, last: nat, page: Connection<T>)
    requires k <= |nodes|
  {
    && page.edges == nodes[Max(k - last, 0)..k]
    && (page.hasPreviousPage <==> k > last)
    && (page.hasPreviousPage && last > 0 ==> page.startCursor == Before(nodes, k - last))
  }

  lemma ForwardPage<T>(nodes: seq<Node<T>>, k: nat, first: nat)
    requires DistinctIds(nodes) && k <= |nodes|
    ensures IsForwardPage(nodes, k, first, ConnectionOf(nodes, Args(After(nodes, k), None, Some(first), None)))
  {
    if k > 0 { FindUnique(nodes, k - 1); }
  }

  lemma BackwardPage<T>(nodes: seq<Node<T>>, k: nat, last: nat)
    requires DistinctIds(nodes) && k <= |nodes|
    ensures IsBackwardPage(nodes, k, last, ConnectionOf(nodes, Args(None, Before(nodes, k), None, Some(last))))
  {
    if k < |nodes| { FindUnique(nodes, k); }
  }

  /** What a client collects that follows endCursor while there is a next page, by at
      most `requests` further requests. */
  function FollowForward<T>(fetch: Option<string> -> Connection<T>, after: Option<string>, requests: nat): seq<Node<T>>
    decreases requests
  {
    var page := fetch(after);
    if page.hasNextPage && requests > 0 then page.edges + FollowForward(fetch, page.endCursor, requests - 1)
    else page.edges
  }

  /** Likewise backwards, with startCursor. */
  function FollowBackward<T>(
    fetch: Option<string> -> Connection<T>, before: Option<string>, requests: nat): seq<Node<T>>
    decreases requests
  {
    var page := fetch(before);
    if page.hasPreviousPage && requests > 0 then FollowBackward(fetch, page.startCursor, requests - 1) + page.edges
    else page.edges
  }

  /** The server answers every request with the page at its cursor. */
  ghost predicate ServesForward<T>(fetch: Option<string> -> Connection<T>, nodes: seq<Node<T>>, first: nat) {
    forall i: nat :: i <= |nodes| ==> IsForwardPage(nodes, i, first, fetch(After(nodes, i)))
  }

  ghost predicate ServesBackward<T>(fetch: Option<string> -> Connection<T>, nodes: seq<Node<T>>, last: nat) {
    forall i: nat :: i <= |nodes| ==> IsBackwardPage(nodes, i, last, fetch(Before(nodes, i)))
  }

  lemma ForwardStep<T>(
    fetch: Option<string> -> Connection<T>, nodes: seq<Node<T>>, k: nat, first: nat, requests: nat)
    requires ServesForward(fetch, nodes, first) && k <= |nodes| && first >= 1 && requests >= |nodes| - k
    ensures FollowForward(fetch, After(nodes, k), requests)
         == if k + first < |nodes|
            then nodes[k..k + first] + FollowForward(fetch, After(nodes, k + first), requests - 1)
            else nodes[k..]
  {
    assert IsForwardPage(nodes, k, first, fetch(After(nodes, k)));
  }

  lemma BackwardStep<T>(
    fetch: Option<string> -> Connection<T>, nodes: seq<Node<T>>, k: nat, last: nat, requests: nat)
    requires ServesBackward(fetch, nodes, last) && k <= |nodes| && last >= 1 && requests >= k
    ensures FollowBackward(fetch, Before(nodes, k), requests)
         == if k > last then FollowBackward(fetch, Before(nodes, k - last), requests - 1) + nodes[k - last..k]
            else nodes[..k]
  {
    assert IsBackwardPage(nodes, k, last, fetch(Before(nodes, k)));
  }

  lemma {:induction false} ForwardWalk<T>(
    fetch: Option<string> -> Connection<T>, nodes: seq<Node<T>>, k: nat, first: nat, requests: nat)
    requires ServesForward(fetch, nodes, first) && k <= |nodes| && first >= 1 && requests >= |nodes| - k
    ensures FollowForward(fetch, After(nodes, k), requests) == nodes[k..]
    decreases |nodes| - k
  {
    ForwardStep(fetch, nodes, k, first, requests);
    if k + first < |nodes| {
      ForwardWalk(fetch, nodes, k + first, first, requests - 1);
      assert nodes[k..] == nodes[k..k + first] + nodes[k + first..];
    }
  }

  lemma {:induction false} BackwardWalk<T>(
    fetch: Option<string> -> Connection<T>, nodes: seq<Node<T>>, k: nat, last: nat, requests: nat)
    requires ServesBackward(fetch, nodes, last) && k <= |nodes| && last >= 1 && requests >= k
    ensures FollowBackward(fetch, Before(nodes, k), requests) == nodes[..k]
    decreases k
  {
    BackwardStep(fetch, nodes, k, last, requests);
    if k > last {
      BackwardWalk(fetch, nodes, k - last, last, requests - 1);
      assert nodes[..k] == nodes[..k - last] + nodes[k - last..k];
    }
  }

  /** Following the cursors forward returns every node exactly once, in order, for every
      page size; as many requests as there are nodes always suffice. */
  lemma ForwardReturnsAll<T>(nodes: seq<Node<T>>, first: nat)
    requires DistinctIds(nodes) && first >= 1
    ensures FollowForward(after => ConnectionOf(nodes, Args(after, None, Some(first), None)), None, |nodes|) == nodes
  {
    var fetch := after => ConnectionOf(nodes, Args(after, None, Some(first), None));
    forall i: nat | i <= |nodes| ensures IsForwardPage(nodes, i, first, fetch(After(nodes, i))) {
      ForwardPage(nodes, i, first);
    }
    ForwardWalk(fetch, nodes, 0, first, |nodes|);
  }

  lemma BackwardReturnsAll<T>(nodes: seq<Node<T>>, last: nat)
    requires DistinctIds(nodes) && last >= 1
    ensures FollowBackward(before => ConnectionOf(nodes, Args(None, before, None, Some(last))), None, |nodes|) == nodes
  {
    var fetch := before => ConnectionOf(nodes, Args(None, before, None, Some(last)));
    forall i: nat | i <= |nodes| ensures IsBackwardPage(nodes, i, last, fetch(Before(nodes, i))) {
      BackwardPage(nodes, i, last);
    }
    BackwardWalk(fetch, nodes, |nodes|, last, |nodes|);
  }
}
