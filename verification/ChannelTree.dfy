/** Descendants in the event channel tree (get_descendants in media-rust). */
module ChannelTree {
  import opened Wrappers

  type Channel = string

  /** Each channel's parent. Nothing keeps a received tree from being cyclic or dangling. */
  type Tree = map<Channel, Option<Channel>>

  predicate IsChild(tree: Tree, child: Channel, parent: Channel) {
    child in tree && tree[child] == Some(parent)
  }

  /** A walk down one or more child links from `root` to `to`. */
  ghost predicate IsWalk(tree: Tree, path: seq<Channel>, root: Channel, to: Channel) {
    && |path| >= 2 && path[0] == root && path[|path| - 1] == to
    && forall i :: 0 < i < |path| ==> IsChild(tree, path[i], path[i - 1])
  }

  ghost predicate Reaches(tree: Tree, root: Channel, to: Channel) {
    exists path :: IsWalk(tree, path, root, to)
  }

  /** A link leads down, from the parent a channel names to that channel; a channel nobody names as parent reaches nothing. */
  lemma LinksLeadDown(tree: Tree, parent: Channel, child: Channel)
    ensures child in tree && tree[child] == Some(parent) ==> Reaches(tree, parent, child)
    ensures (forall c | c in tree :: tree[c] != Some(parent)) ==> !Reaches(tree, parent, child)
  {
    if child in tree && tree[child] == Some(parent) {
      assert IsWalk(tree, [parent, child], parent, child);
    }
    if Reaches(tree, parent, child) {
      var path :| IsWalk(tree, path, parent, child);
      assert IsChild(tree, path[1], path[0]);
    }
  }

  lemma ChildReached(tree: Tree, root: Channel, mid: Channel, child: Channel)
    requires mid == root || Reaches(tree, root, mid)
    requires IsChild(tree, child, mid)
    ensures Reaches(tree, root, child)
  {
    if Reaches(tree, root, mid) {
      var path :| IsWalk(tree, path, root, mid);
      assert IsWalk(tree, path + [child], root, child);
    } else {
      assert IsWalk(tree, [root, child], root, child);
    }
  }

  ghost predicate ChildrenIn(tree: Tree, parent: Channel, s: set<Channel>) {
    forall c :: IsChild(tree, c, parent) ==> c in s
  }

  /** A set holding every child of the root and of its own members holds everything reachable. */
  lemma {:induction false} ClosedHoldsReachable(tree: Tree, root: Channel, s: set<Channel>, path: seq<Channel>, to: Channel)
    requires ChildrenIn(tree, root, s) && forall p :: p in s ==> ChildrenIn(tree, p, s)
    requires IsWalk(tree, path, root, to)
    ensures to in s
  {
    var n := |path| - 1;
    assert IsChild(tree, to, path[n - 1]);
    if n > 1 {
      ClosedHoldsReachable(tree, root, s, path[..n], path[n - 1]);
    }
  }

  ghost predicate Distinct(s: seq<Channel>) {
    forall i, j :: 0 <= i < j < |s| ==> s[i] != s[j]
  }

  lemma DistinctConcat(a: seq<Channel>, b: seq<Channel>)
    requires Distinct(a) && Distinct(b) && forall c :: c in a ==> c !in b
    ensures Distinct(a + b)
  {
    forall i, j | 0 <= i < j < |a + b| ensures (a + b)[i] != (a + b)[j] {
      if i < |a| <= j {
        assert a[i] in a && b[j - |a|] in b;
      }
    }
  }

  /** One pass over the tree: the children of `current` not visited before. */
  method NewChildren(tree: Tree, current: Channel, visited: set<Channel>) returns (added: seq<Channel>)
    ensures Distinct(added)
    ensures forall c :: c in added <==> IsChild(tree, c, current) && c !in visited
  {
    added := [];
    var ids := tree.Keys;
    while ids != {}
      invariant ids <= tree.Keys && Distinct(added)
      invariant forall c :: c in added <==> c !in ids && IsChild(tree, c, current) && c !in visited
      decreases ids
    {
      var id :| id in ids;
      ids := ids - {id};
      if tree[id] == Some(current) && id !in visited {
        added := added + [id];
      }
    }
  }

  /**
   Terminates on every tree and returns, without repetition, exactly the
   channels reachable from the root by one or more child links.
   */
  method GetDescendants(tree: Tree, root: Channel) returns (result: seq<Channel>)
    ensures Distinct(result)
    ensures forall c :: c in result <==> Reaches(tree, root, c)
  {
    result := [];
    var visited: set<Channel> := {};
    var frontier := [root];
    while frontier != []
      invariant Distinct(result)
      invariant forall c :: c in result <==> c in visited
      invariant visited <= tree.Keys
      invariant forall c :: c in visited ==> Reaches(tree, root, c)
      invariant forall f :: f in frontier ==> f == root || f in visited
      invariant root in frontier || ChildrenIn(tree, root, visited)
      invariant forall p :: p in visited ==> p in frontier || ChildrenIn(tree, p, visited)
      decreases tree.Keys - visited, |frontier|
    {
      var current := frontier[|frontier| - 1];
      var rest := frontier[..|frontier| - 1];
      assert frontier == rest + [current];
      var added := NewChildren(tree, current, visited);
      forall c | c in added ensures Reaches(tree, root, c) {
        ChildReached(tree, root, current, c);
      }
      DistinctConcat(result, added);
      var was := visited;
      visited := visited + (set c | c in added);
      result, frontier := result + added, rest + added;
      assert added == [] ==> visited == was;
      assert added != [] ==> added[0] in visited - was;
      assert ChildrenIn(tree, current, visited);
    }
    forall c | Reaches(tree, root, c) ensures c in visited {
      var path :| IsWalk(tree, path, root, c);
      ClosedHoldsReachable(tree, root, visited, path, c);
    }
  }

  /** The root is its own descendant exactly when it lies on a cycle. */
  lemma RootOnlyOnCycle(tree: Tree, root: Channel)
    ensures Reaches(tree, root, root) <==> exists c :: IsChild(tree, root, c) && (c == root || Reaches(tree, root, c))
  {
    if Reaches(tree, root, root) {
      var path :| IsWalk(tree, path, root, root);
      var c := path[|path| - 2];
      assert IsChild(tree, root, c);
      if |path| > 2 {
        assert IsWalk(tree, path[..|path| - 1], root, c);
      }
    } else {
      forall c | IsChild(tree, root, c) && (c == root || Reaches(tree, root, c)) ensures false {
        ChildReached(tree, root, c, root);
      }
    }
  }
}
