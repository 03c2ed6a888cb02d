/**
 Whether a TLS failure was an abrupt EOF (coordinator.py): a bounded search through the errors an exception links
 to, which may well link back to one another.
 */
module TlsEof {
  const MAX_SEEN: nat := 16

  /** The errors one error links to, in the order they are looked at; ids stand for the exception objects. */
  type Links = nat -> seq<nat>

  ghost predicate Path(links: Links, path: seq<nat>) {
    path != [] && forall i | 0 <= i < |path| - 1 :: path[i + 1] in links(path[i])
  }

  ghost predicate Reaches(links: Links, root: nat, node: nat) {
    exists path :: Path(links, path) && path[0] == root && path[|path| - 1] == node
  }

  ghost predicate Closed(links: Links, nodes: set<nat>) {
    forall x, y | x in nodes && y in links(x) :: y in nodes
  }

  lemma ReachesNext(links: Links, root: nat, x: nat, y: nat)
    requires Reaches(links, root, x) && y in links(x)
    ensures Reaches(links, root, y)
  {
    var path :| Path(links, path) && path[0] == root && path[|path| - 1] == x;
    var longer := path + [y];
    assert Path(links, longer) && longer[0] == root && longer[|longer| - 1] == y;
  }

  lemma ReachesItself(links: Links, root: nat)
    ensures Reaches(links, root, root)
  {
    assert Path(links, [root]) && [root][0] == root;
  }

  /** A closed set of errors is never left. */
  lemma {:induction false} ClosedKeeps(links: Links, nodes: set<nat>, path: seq<nat>)
    requires Closed(links, nodes) && Path(links, path) && path[0] in nodes
    ensures path[|path| - 1] in nodes
    decreases |path|
  {
    if |path| > 1 {
      assert path[1] in links(path[0]);
      assert Path(links, path[1..]) by {
        forall i | 0 <= i < |path[1..]| - 1 ensures path[1..][i + 1] in links(path[1..][i]) {
          assert path[i + 2] in links(path[i + 1]);
        }
      }
      ClosedKeeps(links, nodes, path[1..]);
    }
  }

  lemma ReachedStays(links: Links, nodes: set<nat>, root: nat, node: nat)
    requires Closed(links, nodes) && root in nodes && Reaches(links, root, node)
    ensures node in nodes
  {
    var path :| Path(links, path) && path[0] == root && path[|path| - 1] == node;
    ClosedKeeps(links, nodes, path);
  }

  ghost predicate Expanded(links: Links, seen: set<nat>, pending: seq<nat>) {
    forall x, y | x in seen && y in links(x) :: y in seen || y in pending
  }

  lemma SubsetSize(a: set<nat>, b: set<nat>)
    requires a <= b
    ensures |a| <= |b| && (|a| == |b| ==> a == b)
  {
    if a != b {
      var x :| x in b && x !in a;
      SubsetSize(a, b - {x});
    }
  }

  /** The search as a function of its two locals. */
  function Search(links: Links, eof: nat -> bool, pending: seq<nat>, seen: set<nat>): bool
    decreases if |seen| < MAX_SEEN then MAX_SEEN - |seen| else 0, |pending|
  {
    if pending == [] || |seen| >= MAX_SEEN then false
    else
      var current, rest := pending[|pending| - 1], pending[..|pending| - 1];
      if current in seen then Search(links, eof, rest, seen)
      else if eof(current) then true
      else Search(links, eof, rest + links(current), seen + {current})
  }

  /**
   The search ends on every graph, however cyclic. It answers yes only if an EOF error is reachable, and it does so
   whenever one is reachable inside a closed set of at most sixteen errors.
   */
  method FindEof(links: Links, eof: nat -> bool, root: nat) returns (found: bool)
    ensures found == Search(links, eof, [root], {})
    ensures found ==> exists node :: Reaches(links, root, node) && eof(node)
    ensures forall nodes: set<nat>, node ::
      Closed(links, nodes) && root in nodes && |nodes| <= MAX_SEEN && Reaches(links, root, node) && eof(node) ==> found
  {
    var pending: seq<nat>, seen: set<nat> := [root], {};
    ReachesItself(links, root);
    while pending != [] && |seen| < MAX_SEEN
      invariant forall x | x in pending || x in seen :: Reaches(links, root, x)
      invariant forall x | x in seen :: !eof(x)
      invariant Expanded(links, seen, pending) && (root in seen || root in pending)
      invariant |seen| <= MAX_SEEN && Search(links, eof, pending, seen) == Search(links, eof, [root], {})
      decreases MAX_SEEN - |seen|, |pending|
    {
      var current := pending[|pending| - 1];
      ghost var before := pending;
      pending := pending[..|pending| - 1];
      assert forall x :: x in before <==> x in pending || x == current;
      if current !in seen {
        seen := seen + {current};
        if eof(current) {
          return true;
        }
        forall y | y in links(current) ensures Reaches(links, root, y) {
          ReachesNext(links, root, current, y);
        }
        pending := pending + links(current);
      }
    }
    forall nodes: set<nat>, node |
      Closed(links, nodes) && root in nodes && |nodes| <= MAX_SEEN && Reaches(links, root, node)
      ensures !eof(node)
    {
      NothingMissed(links, seen, pending, nodes, root, node);
    }
    found := false;
  }

  /** When the search gives up, every error of a small graph has been looked at. */
  lemma NothingMissed(links: Links, seen: set<nat>, pending: seq<nat>, nodes: set<nat>, root: nat, node: nat)
    requires Closed(links, nodes) && root in nodes && |nodes| <= MAX_SEEN && Reaches(links, root, node)
    requires forall x | x in seen :: Reaches(links, root, x)
    requires Expanded(links, seen, pending) && (root in seen || root in pending)
    requires pending == [] || |seen| >= MAX_SEEN
    ensures node in seen
  {
    if |seen| >= MAX_SEEN {
      forall x | x in seen ensures x in nodes {
        ReachedStays(links, nodes, root, x);
      }
      SubsetSize(seen, nodes);
      ReachedStays(links, nodes, root, node);
    } else {
      ReachedStays(links, seen, root, node);
    }
  }

  // ----- the bound is exact

  function Numbers(n: nat): (numbers: set<nat>)
    ensures forall k: nat :: k in numbers <==> k < n
    ensures |numbers| == n
  {
    if n == 0 then {} else Numbers(n - 1) + {n - 1}
  }

  const CHAIN: Links := (n: nat) => [n + 1]
  const LAST := (n: nat) => n == 16

  lemma {:induction false} ChainFrom(n: nat)
    requires n <= 16
    ensures !Search(CHAIN, LAST, [n], Numbers(n))
    decreases 16 - n
  {
    if n < 16 {
      ChainFrom(n + 1);
      ChainStep(n, Numbers(n));
      assert Numbers(n) + {n} == Numbers(n + 1);
    }
  }

  lemma ChainStep(n: nat, seen: set<nat>)
    requires n < 16 && |seen| == n && n !in seen
    ensures Search(CHAIN, LAST, [n], seen) == Search(CHAIN, LAST, [n + 1], seen + {n})
  {
    assert [n][..0] + CHAIN(n) == [n + 1];
  }

  /** An EOF error behind sixteen others is reachable, but no longer found. */
  lemma SeventeenIsTooMany()
    ensures Reaches(CHAIN, 0, 16) && LAST(16) && !Search(CHAIN, LAST, [0], {})
  {
    var path := seq(17, i requires 0 <= i < 17 => i as nat);
    assert Path(CHAIN, path) && path[0] == 0 && path[|path| - 1] == 16;
    ChainFrom(0);
    assert Numbers(0) == {};
  }
}
