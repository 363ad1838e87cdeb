/**
 Addresses and the nodes in memory that stand for them.
 */
module NodeMap {

  ghost predicate Injective<K(!new), N>(ops: map<K, N>) {
    forall a, b | a in ops && b in ops && ops[a] == ops[b] :: a == b
  }

  // The nodes are those of the addresses, one by one.
  ghost predicate Listed<K, N>(ops: map<K, N>, xs: seq<K>, nodes: seq<N>) {
    |xs| == |nodes| && forall i | 0 <= i < |xs| :: xs[i] in ops && nodes[i] == ops[xs[i]]
  }

  lemma NodesIn<K, N>(ops: map<K, N>, xs: seq<K>, nodes: seq<N>)
    requires Listed(ops, xs, nodes)
    ensures forall x | x in nodes :: x in ops.Values
  {
  }

  lemma ListedAt<K(!new), N>(ops: map<K, N>, xs: seq<K>, nodes: seq<N>, x: K)
    requires Listed(ops, xs, nodes) && Injective(ops) && x in ops
    ensures forall i | 0 <= i < |xs| :: xs[i] == x <==> nodes[i] == ops[x]
    ensures ops[x] in nodes <==> x in xs
  {
    if x in xs {
      var i :| 0 <= i < |xs| && xs[i] == x;
      assert nodes[i] == ops[x];
    }
  }
}
