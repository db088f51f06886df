/** Clustering of OCR observations (application/voting.py): a union-find with path halving
    over the graph "edit distance at most `limit`". */
module PlateClusters {
  import opened EditDistance

  // ----- the graph

  ghost predicate Near(texts: seq<string>, limit: nat, i: nat, j: nat) {
    i < |texts| && j < |texts| && Lev(texts[i], texts[j]) <= limit
  }

  ghost predicate Walk(texts: seq<string>, limit: nat, path: seq<nat>, i: nat, j: nat) {
    && |path| >= 1 && path[0] == i && path[|path| - 1] == j
    && (forall k :: 0 <= k < |path| ==> path[k] < |texts|)
    && (forall k :: 0 <= k < |path| - 1 ==> Near(texts, limit, path[k], path[k + 1]))
  }

  /** `i` and `j` lie in the same connected component. */
  ghost predicate Connected(texts: seq<string>, limit: nat, i: nat, j: nat) {
    exists path :: Walk(texts, limit, path, i, j)
  }

  lemma ConnectedToItself(texts: seq<string>, limit: nat, i: nat)
    requires i < |texts|
    ensures Connected(texts, limit, i, i)
  {
    assert Walk(texts, limit, [i], i, i);
  }

  lemma NearIsConnected(texts: seq<string>, limit: nat, i: nat, j: nat)
    requires Near(texts, limit, i, j)
    ensures Connected(texts, limit, i, j)
  {
    assert Walk(texts, limit, [i, j], i, j);
  }

  lemma ConnectedBackwards(texts: seq<string>, limit: nat, i: nat, j: nat)
    requires Connected(texts, limit, i, j)
    ensures Connected(texts, limit, j, i)
  {
    var path :| Walk(texts, limit, path, i, j);
    var back := seq(|path|, k requires 0 <= k < |path| => path[|path| - 1 - k]);
    forall k | 0 <= k < |back| - 1 ensures Near(texts, limit, back[k], back[k + 1]) {
      var m := |path| - 2 - k;
      assert Near(texts, limit, path[m], path[m + 1]);
      Symmetric(texts[path[m]], texts[path[m + 1]]);
    }
    assert Walk(texts, limit, back, j, i);
  }

  lemma ConnectedThrough(texts: seq<string>, limit: nat, i: nat, j: nat, k: nat)
    requires Connected(texts, limit, i, j) && Connected(texts, limit, j, k)
    ensures Connected(texts, limit, i, k)
  {
    var first :| Walk(texts, limit, first, i, j);
    var second :| Walk(texts, limit, second, j, k);
    var joined := first + second[1..];
    forall n | 0 <= n < |joined| - 1 ensures Near(texts, limit, joined[n], joined[n + 1]) {
      if n < |first| - 1 {
        assert Near(texts, limit, first[n], first[n + 1]);
      } else {
        var m := n - (|first| - 1);
        assert Near(texts, limit, second[m], second[m + 1]);
        assert joined[n] == second[m] && joined[n + 1] == second[m + 1];
      }
    }
    assert Walk(texts, limit, joined, i, k);
  }

  // ----- the forest

  /** The link of `i` stays inside, descends in `depth` unless `i` is a root, and keeps the
      root: `root[i]` is where the links from `i` end. */
  ghost predicate Settled(parents: seq<nat>, depth: seq<nat>, root: seq<nat>, i: nat)
    requires |parents| == |depth| == |root|
  {
    i < |parents| ==>
      && parents[i] < |parents| && root[i] < |parents|
      && (if parents[i] == i then root[i] == i else depth[parents[i]] < depth[i])
      && root[parents[i]] == root[i]
      && parents[root[i]] == root[i]
  }

  /** `parents` is an acyclic forest with the given roots. */
  ghost predicate Forest(parents: seq<nat>, depth: seq<nat>, root: seq<nat>) {
    && |parents| == |depth| == |root|
    && forall i: nat :: Settled(parents, depth, root, i)
  }

  lemma HalvingKeepsForest(parents: seq<nat>, depth: seq<nat>, root: seq<nat>, index: nat)
    requires Forest(parents, depth, root) && index < |parents| && parents[index] != index
    ensures parents[index] < |parents| && parents[parents[index]] < |parents|
    ensures depth[parents[parents[index]]] < depth[index]
    ensures Forest(parents[index := parents[parents[index]]], depth, root)
    ensures root[parents[parents[index]]] == root[index]
  {
    assert Settled(parents, depth, root, index);
    assert Settled(parents, depth, root, parents[index]);
    var halved := parents[index := parents[parents[index]]];
    forall i: nat ensures Settled(halved, depth, root, i) {
      assert Settled(parents, depth, root, i);
    }
  }

  /** Path halving moves links but no root, and terminates because `depth` falls. */
  method Find(parents: array<nat>, start: nat, ghost depth: seq<nat>, ghost root: seq<nat>) returns (index: nat)
    requires start < parents.Length && Forest(parents[..], depth, root)
    modifies parents
    ensures Forest(parents[..], depth, root)
    ensures index == root[start] < parents.Length && parents[index] == index
  {
    index := start;
    while parents[index] != index
      invariant index < parents.Length && Forest(parents[..], depth, root)
      invariant root[index] == root[start]
      decreases depth[index]
    {
      ghost var before := parents[..];
      HalvingKeepsForest(before, depth, root, index);
      assert parents[index] == before[index];
      parents[index] := parents[parents[index]];
      assert parents[..] == before[index := before[before[index]]];
      index := parents[index];
    }
    assert Settled(parents[..], depth, root, index);
  }

  function Rerooted(root: seq<nat>, from: nat, to: nat): (merged: seq<nat>)
    ensures |merged| == |root|
  {
    seq(|root|, i requires 0 <= i < |root| => if root[i] == from then to else root[i])
  }

  lemma LinkingKeepsForest(parents: seq<nat>, depth: seq<nat>, root: seq<nat>, leftRoot: nat, rightRoot: nat) returns (deeper: seq<nat>)
    requires Forest(parents, depth, root)
    requires leftRoot < |parents| && parents[leftRoot] == leftRoot
    requires rightRoot < |parents| && parents[rightRoot] == rightRoot && leftRoot != rightRoot
    ensures Forest(parents[rightRoot := leftRoot], deeper, Rerooted(root, rightRoot, leftRoot))
  {
    deeper := seq(|depth|, i requires 0 <= i < |depth| =>
      if root[i] == rightRoot then depth[i] + depth[leftRoot] + 1 else depth[i]);
    assert Settled(parents, depth, root, leftRoot);
    assert Settled(parents, depth, root, rightRoot);
    var linked, merged := parents[rightRoot := leftRoot], Rerooted(root, rightRoot, leftRoot);
    forall i: nat ensures Settled(linked, deeper, merged, i) {
      assert Settled(parents, depth, root, i);
    }
  }

  /** Hangs the root of `right` below the root of `left`. */
  method Union(parents: array<nat>, left: nat, right: nat, ghost depth: seq<nat>, ghost root: seq<nat>)
    returns (ghost newDepth: seq<nat>, ghost newRoot: seq<nat>)
    requires left < parents.Length && right < parents.Length && Forest(parents[..], depth, root)
    modifies parents
    ensures Forest(parents[..], newDepth, newRoot)
    ensures newRoot == Rerooted(root, root[right], root[left])
  {
    var leftRoot := Find(parents, left, depth, root);
    var rightRoot := Find(parents, right, depth, root);
    if leftRoot != rightRoot {
      ghost var before := parents[..];
      assert Settled(before, depth, root, left) && before[leftRoot] == leftRoot && before[rightRoot] == rightRoot;
      newDepth := LinkingKeepsForest(before, depth, root, leftRoot, rightRoot);
      newRoot := Rerooted(root, rightRoot, leftRoot);
      parents[rightRoot] := leftRoot;
      assert parents[..] == before[rightRoot := leftRoot];
    } else {
      newDepth, newRoot := depth, root;
      assert root == Rerooted(root, rightRoot, leftRoot);
    }
  }

  // ----- the clusters

  ghost predicate InSome(clusters: seq<seq<nat>>, i: nat) {
    exists g :: 0 <= g < |clusters| && i in clusters[g]
  }

  /** Same cluster exactly when same component; every index in exactly one cluster. */
  ghost predicate Components(texts: seq<string>, limit: nat, clusters: seq<seq<nat>>) {
    && (forall g, k :: 0 <= g < |clusters| && 0 <= k < |clusters[g]| ==> clusters[g][k] < |texts|)
    && (forall i :: 0 <= i < |texts| ==> InSome(clusters, i))
    && (forall g, h, i, j :: 0 <= g < |clusters| && 0 <= h < |clusters| && i in clusters[g] && j in clusters[h] ==>
          (g == h <==> Connected(texts, limit, i, j)))
  }

  /** No empty cluster; members ascend; clusters come in order of their first member. */
  ghost predicate InOrder(clusters: seq<seq<nat>>) {
    && (forall g :: 0 <= g < |clusters| ==> clusters[g] != [])
    && (forall g, k, m :: 0 <= g < |clusters| && 0 <= k < m < |clusters[g]| ==> clusters[g][k] < clusters[g][m])
    && (forall g, h :: 0 <= g < h < |clusters| ==> clusters[g][0] < clusters[h][0])
  }

  /** Every index is connected to its root. */
  ghost predicate Grounded(texts: seq<string>, limit: nat, root: seq<nat>) {
    |root| == |texts| && forall i :: 0 <= i < |root| ==> Connected(texts, limit, i, root[i])
  }

  /** Every near pair before position (`left`, `right`) of the double loop shares a root. */
  ghost predicate Merged(texts: seq<string>, limit: nat, root: seq<nat>, left: nat, right: nat) {
    |root| == |texts| && forall a, b :: 0 <= a < b < |texts| && (a < left || (a == left && b < right)) && Near(texts, limit, a, b) ==>
      root[a] == root[b]
  }

  lemma UnionGrounded(texts: seq<string>, limit: nat, root: seq<nat>, left: nat, right: nat, merged: seq<nat>)
    requires Grounded(texts, limit, root) && Near(texts, limit, left, right) && |merged| == |root|
    requires merged == Rerooted(root, root[right], root[left])
    ensures Grounded(texts, limit, merged)
  {
    forall i | 0 <= i < |root| ensures Connected(texts, limit, i, merged[i]) {
      if root[i] == root[right] {
        ConnectedBackwards(texts, limit, right, root[right]);
        ConnectedThrough(texts, limit, i, root[i], right);
        NearIsConnected(texts, limit, left, right);
        ConnectedBackwards(texts, limit, left, right);
        ConnectedThrough(texts, limit, i, right, left);
        ConnectedThrough(texts, limit, i, left, root[left]);
      }
    }
  }

  lemma {:induction false} WalkKeepsRoot(texts: seq<string>, limit: nat, root: seq<nat>, path: seq<nat>, i: nat, j: nat)
    requires Merged(texts, limit, root, |texts|, 0) && Walk(texts, limit, path, i, j)
    ensures root[i] == root[j]
    decreases |path|
  {
    if |path| > 1 {
      assert Near(texts, limit, path[0], path[1]);
      Symmetric(texts[path[0]], texts[path[1]]);
      assert Near(texts, limit, path[1], path[0]);
      var rest := path[1..];
      forall k | 0 <= k < |rest| - 1 ensures Near(texts, limit, rest[k], rest[k + 1]) {
        assert Near(texts, limit, path[k + 1], path[k + 1 + 1]);
      }
      WalkKeepsRoot(texts, limit, root, rest, path[1], j);
    }
  }

  lemma RootsAreComponents(texts: seq<string>, limit: nat, root: seq<nat>, i: nat, j: nat)
    requires Grounded(texts, limit, root) && Merged(texts, limit, root, |texts|, 0)
    requires i < |texts| && j < |texts|
    ensures root[i] == root[j] <==> Connected(texts, limit, i, j)
  {
    if root[i] == root[j] {
      ConnectedBackwards(texts, limit, j, root[j]);
      ConnectedThrough(texts, limit, i, root[i], j);
    }
    if path :| Walk(texts, limit, path, i, j) {
      WalkKeepsRoot(texts, limit, root, path, i, j);
    }
  }

  lemma UnionMerges(texts: seq<string>, limit: nat, root: seq<nat>, left: nat, right: nat)
    requires left < right < |texts| && Merged(texts, limit, root, left, right)
    ensures Merged(texts, limit, Rerooted(root, root[right], root[left]), left, right + 1)
  {
  }

  /** The double loop of `_clusters`. */
  method MergeNearPairs(texts: seq<string>, limit: nat) returns (parents: array<nat>, ghost depth: seq<nat>, ghost root: seq<nat>)
    ensures fresh(parents) && parents.Length == |texts| && Forest(parents[..], depth, root)
    ensures Grounded(texts, limit, root) && Merged(texts, limit, root, |texts|, 0)
  {
    parents := new nat[|texts|](i => i);
    depth := seq(|texts|, i => 0);
    root := seq(|texts|, i requires 0 <= i < |texts| => i);
    forall i | 0 <= i < |texts| ensures Connected(texts, limit, i, root[i]) { ConnectedToItself(texts, limit, i); }
    for left := 0 to |texts|
      invariant Forest(parents[..], depth, root)
      invariant Grounded(texts, limit, root) && Merged(texts, limit, root, left, 0)
    {
      for right := left + 1 to |texts|
        invariant Forest(parents[..], depth, root)
        invariant Grounded(texts, limit, root) && Merged(texts, limit, root, left, right)
      {
        var distance := SwappingDistance(texts[left], texts[right]);
        if distance <= limit {
          ghost var before := root;
          depth, root := Union(parents, left, right, depth, root);
          UnionGrounded(texts, limit, before, left, right, root);
          UnionMerges(texts, limit, before, left, right);
        }
      }
    }
  }

  // ----- gathering: a dictionary from roots to clusters, in insertion order

  /** Cluster `g` holds indices below `done` whose root is `key[g]`, ascending. */
  ghost predicate GoodCluster(root: seq<nat>, done: nat, key: seq<nat>, cluster: seq<nat>, g: nat)
    requires done <= |root| && g < |key|
  {
    && cluster != []
    && (forall k :: 0 <= k < |cluster| ==> cluster[k] < done && root[cluster[k]] == key[g])
    && (forall k, m :: 0 <= k < m < |cluster| ==> cluster[k] < cluster[m])
  }

  ghost predicate Gathered(root: seq<nat>, done: nat, slot: map<nat, nat>, key: seq<nat>, clusters: seq<seq<nat>>)
    requires done <= |root|
  {
    && |key| == |clusters|
    && (forall r :: r in slot ==> slot[r] < |key| && key[slot[r]] == r)
    && (forall g :: 0 <= g < |key| ==> key[g] in slot && slot[key[g]] == g)
    && (forall g :: 0 <= g < |key| ==> GoodCluster(root, done, key, clusters[g], g))
    && (forall i :: 0 <= i < done ==> root[i] in slot && i in clusters[slot[root[i]]])
    && (forall g, h :: 0 <= g < h < |clusters| ==> clusters[g][0] < clusters[h][0])
  }

  lemma JoinsCluster(root: seq<nat>, done: nat, slot: map<nat, nat>, key: seq<nat>, clusters: seq<seq<nat>>)
    requires done < |root| && Gathered(root, done, slot, key, clusters) && root[done] in slot
    ensures Gathered(root, done + 1, slot, key, clusters[slot[root[done]] := clusters[slot[root[done]]] + [done]])
  {
    var s := slot[root[done]];
    var grown := clusters[s := clusters[s] + [done]];
    assert GoodCluster(root, done, key, clusters[s], s);
    forall g | 0 <= g < |key| ensures GoodCluster(root, done + 1, key, grown[g], g) {
      assert GoodCluster(root, done, key, clusters[g], g);
    }
    forall g | 0 <= g < |clusters| ensures grown[g][0] == clusters[g][0] {
      assert GoodCluster(root, done, key, clusters[g], g);
    }
    forall i | 0 <= i < done + 1 ensures root[i] in slot && i in grown[slot[root[i]]] {
      if i < done { assert i in clusters[slot[root[i]]]; }
    }
  }

  lemma OpensCluster(root: seq<nat>, done: nat, slot: map<nat, nat>, key: seq<nat>, clusters: seq<seq<nat>>)
    requires done < |root| && Gathered(root, done, slot, key, clusters) && root[done] !in slot
    ensures Gathered(root, done + 1, slot[root[done] := |clusters|], key + [root[done]], clusters + [[done]])
  {
    var keys, grown := key + [root[done]], clusters + [[done]];
    forall g | 0 <= g < |keys| ensures GoodCluster(root, done + 1, keys, grown[g], g) {
      if g < |key| { assert GoodCluster(root, done, key, clusters[g], g); }
    }
  }

  lemma GatheredAreComponents(texts: seq<string>, limit: nat, root: seq<nat>, slot: map<nat, nat>, key: seq<nat>, clusters: seq<seq<nat>>)
    requires Grounded(texts, limit, root) && Merged(texts, limit, root, |texts|, 0)
    requires Gathered(root, |texts|, slot, key, clusters)
    ensures Components(texts, limit, clusters) && InOrder(clusters)
  {
    forall g | 0 <= g < |key| ensures GoodCluster(root, |texts|, key, clusters[g], g) {}
    forall i | 0 <= i < |texts| ensures InSome(clusters, i) {
      assert i in clusters[slot[root[i]]];
    }
    forall g, h, i, j | 0 <= g < |clusters| && 0 <= h < |clusters| && i in clusters[g] && j in clusters[h]
      ensures g == h <==> Connected(texts, limit, i, j)
    {
      assert GoodCluster(root, |texts|, key, clusters[g], g) && GoodCluster(root, |texts|, key, clusters[h], h);
      RootsAreComponents(texts, limit, root, i, j);
    }
  }

  /** Puts the next index, whose root is `r`, into the cluster of its root. */
  method Gather(index: nat, r: nat, slot: map<nat, nat>, clusters: seq<seq<nat>>, ghost root: seq<nat>, ghost key: seq<nat>)
    returns (slots: map<nat, nat>, grown: seq<seq<nat>>, ghost keys: seq<nat>)
    requires index < |root| && r == root[index] && Gathered(root, index, slot, key, clusters)
    ensures Gathered(root, index + 1, slots, keys, grown)
  {
    if r in slot {
      JoinsCluster(root, index, slot, key, clusters);
      slots, grown, keys := slot, clusters[slot[r] := clusters[slot[r]] + [index]], key;
    } else {
      OpensCluster(root, index, slot, key, clusters);
      slots, grown, keys := slot[r := |clusters|], clusters + [[index]], key + [r];
    }
  }

  /** `_clusters`: exactly the connected components of the "near" graph. */
  method Clusters(texts: seq<string>, limit: nat) returns (clusters: seq<seq<nat>>)
    ensures Components(texts, limit, clusters) && InOrder(clusters)
  {
    ghost var depth, root;
    var parents;
    parents, depth, root := MergeNearPairs(texts, limit);
    clusters := [];
    var slot: map<nat, nat> := map[];
    ghost var key: seq<nat> := [];
    for index := 0 to |texts|
      invariant Forest(parents[..], depth, root)
      invariant Gathered(root, index, slot, key, clusters)
    {
      var r := Find(parents, index, depth, root);
      slot, clusters, key := Gather(index, r, slot, clusters, root, key);
    }
    GatheredAreComponents(texts, limit, root, slot, key, clusters);
  }

  // ----- the clusters are determined

  ghost predicate Ascending(a: seq<nat>) {
    forall k, m :: 0 <= k < m < |a| ==> a[k] < a[m]
  }

  lemma LastIsGreatest(a: seq<nat>, x: nat)
    requires Ascending(a) && x in a
    ensures x <= a[|a| - 1] && (x in a[..|a| - 1] <==> x != a[|a| - 1])
  {
    var k :| 0 <= k < |a| && a[k] == x;
    assert k < |a| - 1 ==> a[..|a| - 1][k] == x;
  }

  lemma {:induction false} AscendingWithSameMembers(a: seq<nat>, b: seq<nat>)
    requires Ascending(a) && Ascending(b) && forall x :: x in a <==> x in b
    ensures a == b
  {
    assert b != [] ==> b[0] in a;
    if a != [] {
      var n, m := |a| - 1, |b| - 1;
      assert a[n] in b && b[m] in a;
      LastIsGreatest(a, b[m]);
      LastIsGreatest(b, a[n]);
      forall x ensures x in a[..n] <==> x in b[..m] {
        if x in a { LastIsGreatest(a, x); LastIsGreatest(b, x); }
      }
      AscendingWithSameMembers(a[..n], b[..m]);
      assert a == a[..n] + [a[n]] && b == b[..m] + [b[m]];
    }
  }

  /** After the same first clusters, the next cluster of `a` starts no earlier than that of `b`. */
  lemma NextStartsNoEarlier(texts: seq<string>, limit: nat, a: seq<seq<nat>>, b: seq<seq<nat>>, g: nat)
    requires Components(texts, limit, a) && InOrder(a) && Components(texts, limit, b) && InOrder(b)
    requires g < |a| && g <= |b| && a[..g] == b[..g]
    ensures g < |b| && b[g][0] <= a[g][0]
  {
    var i := a[g][0];
    assert i in a[g] && InSome(b, i);
    var h :| 0 <= h < |b| && i in b[h];
    ConnectedToItself(texts, limit, i);
    assert forall f :: 0 <= f < g ==> a[..g][f] == a[f] && b[..g][f] == b[f];
    assert h >= g;
    var k :| 0 <= k < |b[h]| && b[h][k] == i;
    assert b[g][0] <= b[h][0] <= b[h][k];
  }

  lemma SameMembers(texts: seq<string>, limit: nat, a: seq<seq<nat>>, b: seq<seq<nat>>, g: nat, x: nat)
    requires Components(texts, limit, a) && Components(texts, limit, b)
    requires g < |a| && g < |b| && a[g] != [] && b[g] != [] && a[g][0] == b[g][0] && x in a[g]
    ensures x in b[g]
  {
    var i := a[g][0];
    assert i in a[g] && i in b[g];
    assert Connected(texts, limit, i, x);
    var k :| 0 <= k < |a[g]| && a[g][k] == x;
    assert InSome(b, x);
    var h :| 0 <= h < |b| && x in b[h];
    assert g == h;
  }

  lemma {:induction false} SameFirstClusters(texts: seq<string>, limit: nat, a: seq<seq<nat>>, b: seq<seq<nat>>, g: nat)
    requires Components(texts, limit, a) && InOrder(a) && Components(texts, limit, b) && InOrder(b) && g <= |a|
    ensures g <= |b| && a[..g] == b[..g]
  {
    if g > 0 {
      var n := g - 1;
      SameFirstClusters(texts, limit, a, b, n);
      NextStartsNoEarlier(texts, limit, a, b, n);
      NextStartsNoEarlier(texts, limit, b, a, n);
      forall x ensures x in a[n] <==> x in b[n] {
        if x in a[n] { SameMembers(texts, limit, a, b, n, x); }
        if x in b[n] { SameMembers(texts, limit, b, a, n, x); }
      }
      AscendingWithSameMembers(a[n], b[n]);
      assert a[..g] == a[..n] + [a[n]] && b[..g] == b[..n] + [b[n]];
    }
  }

  /** There is one way to list the components in order. */
  lemma ComponentsAreUnique(texts: seq<string>, limit: nat, a: seq<seq<nat>>, b: seq<seq<nat>>)
    requires Components(texts, limit, a) && InOrder(a) && Components(texts, limit, b) && InOrder(b)
    ensures a == b
  {
    SameFirstClusters(texts, limit, a, b, |a|);
    SameFirstClusters(texts, limit, b, a, |b|);
    assert a[..|a|] == a && b[..|b|] == b;
  }
}
