/** How pages are assigned to nodes: round robin over partitions of equal size, from page 1 on. */
module Partition {

  /** get_node_id_by_page_id: the partition number, modulo the node count. */
  function Owner(p: nat, size: nat, nodes: nat): nat
    requires p >= 1 && size >= 1 && nodes >= 1
  {
    ((p - 1) / size) % nodes
  }

  /** BuildNodeKeyLists: the place inside a round of all nodes, divided by the partition size. */
  function OwnerInRound(p: nat, size: nat, nodes: nat): nat
    requires p >= 1 && size >= 1 && nodes >= 1
  {
    assert nodes * size >= 1 by { MulPositive(nodes, size); }
    assert (p - 1) % (nodes * size) >= 0;
    ((p - 1) % (nodes * size)) / size
  }

  /** GetPageNumPerNode. */
  function PageNumPerNode(node: nat, pages: nat, size: nat, nodes: nat): nat
    requires size >= 1 && nodes >= 1
  {
    var full := pages / size;
    (full / nodes) * size +
    (if node < full % nodes then size else if node == full % nodes then pages % size else 0)
  }

  /** The pages 1 to `pages` that really belong to `node`. */
  function Owned(node: nat, pages: nat, size: nat, nodes: nat): nat
    requires size >= 1 && nodes >= 1
  {
    if pages == 0 then 0
    else Owned(node, pages - 1, size, nodes) + (if Owner(pages, size, nodes) == node then 1 else 0)
  }

  /** The pages of the first `upTo` nodes together, as the metadata counts them. */
  function Total(upTo: nat, pages: nat, size: nat, nodes: nat): nat
    requires size >= 1 && nodes >= 1
  {
    if upTo == 0 then 0 else Total(upTo - 1, pages, size, nodes) + PageNumPerNode(upTo - 1, pages, size, nodes)
  }

  // ----- division -----

  lemma MulPositive(a: nat, b: nat)
    requires a >= 1 && b >= 1
    ensures a * b >= 1
  {}

  lemma DivUnique(x: nat, d: nat, q: nat, r: nat)
    requires d >= 1 && r < d && x == q * d + r
    ensures x / d == q && x % d == r
  {
    SameQuotient(d, x / d, x % d, q, r);
  }

  lemma MulAtLeast(a: nat, b: nat, d: nat)
    requires a >= b
    ensures a * d >= b * d
  {}

  lemma SameQuotient(d: nat, k: nat, m: nat, q: nat, r: nat)
    requires m < d && r < d && k * d + m == q * d + r
    ensures k == q && m == r
  {
    if k < q { MulAtLeast(q, k + 1, d); }
    if q < k { MulAtLeast(k, q + 1, d); }
  }

  lemma DivParts(x: nat, d: nat)
    requires d >= 1
    ensures x == (x / d) * d + x % d && 0 <= x % d < d
  {}

  lemma Regroup(a: nat, nodes: nat, b: nat, size: nat)
    ensures (a * nodes + b) * size == a * (nodes * size) + b * size
  {}

  // ----- both owner formulas agree -----

  lemma OwnersAgree(p: nat, size: nat, nodes: nat)
    requires p >= 1 && size >= 1 && nodes >= 1
    ensures Owner(p, size, nodes) == OwnerInRound(p, size, nodes) < nodes
  {
    var x := p - 1;
    var q, r := x / size, x % size;
    var a, b := q / nodes, q % nodes;
    DivParts(x, size);
    DivParts(q, nodes);
    MulPositive(nodes, size);
    Regroup(a, nodes, b, size);
    MulAtLeast(nodes, b + 1, size);
    DivUnique(x, nodes * size, a, b * size + r);
    DivUnique(b * size + r, size, b, r);
  }

  // ----- the count is the true count -----

  /** Going from page `n - 1` to page `n` inside a partition. */
  lemma StepInside(n: nat, size: nat)
    requires size >= 1 && n >= 1 && n % size != 0
    ensures (n - 1) / size == n / size && (n - 1) % size == n % size - 1
  {
    DivParts(n, size);
    DivUnique(n - 1, size, n / size, n % size - 1);
  }

  /** Going to the last page of a partition. */
  lemma StepAcross(n: nat, size: nat)
    requires size >= 1 && n >= 1 && n % size == 0
    ensures n / size >= 1 && (n - 1) / size == n / size - 1 && (n - 1) % size == size - 1
  {
    DivParts(n, size);
    assert n / size >= 1;
    assert n - 1 == (n / size - 1) * size + (size - 1);
    DivUnique(n - 1, size, n / size - 1, size - 1);
  }

  lemma NextCount(node: nat, n: nat, size: nat, nodes: nat)
    requires size >= 1 && nodes >= 1 && n >= 1 && node < nodes
    ensures PageNumPerNode(node, n, size, nodes)
            == PageNumPerNode(node, n - 1, size, nodes) + (if Owner(n, size, nodes) == node then 1 else 0)
  {
    if n % size != 0 {
      StepInside(n, size);
    } else {
      StepAcross(n, size);
      var full := n / size;
      if full % nodes != 0 {
        StepInside(full, nodes);
      } else {
        StepAcross(full, nodes);
        assert (full / nodes) * size == ((full - 1) / nodes) * size + size by {
          assert full / nodes == (full - 1) / nodes + 1;
        }
      }
    }
  }

  /** The closed formula counts exactly the pages the node owns. */
  lemma {:induction false} CountIsTrue(node: nat, pages: nat, size: nat, nodes: nat)
    requires size >= 1 && nodes >= 1 && node < nodes
    ensures PageNumPerNode(node, pages, size, nodes) == Owned(node, pages, size, nodes)
  {
    if pages == 0 {
      DivUnique(0, size, 0, 0);
      DivUnique(0, nodes, 0, 0);
    } else {
      CountIsTrue(node, pages - 1, size, nodes);
      NextCount(node, pages, size, nodes);
    }
  }

  lemma {:induction false} NextTotal(upTo: nat, n: nat, size: nat, nodes: nat)
    requires size >= 1 && nodes >= 1 && n >= 1 && upTo <= nodes
    ensures Total(upTo, n, size, nodes)
            == Total(upTo, n - 1, size, nodes) + (if Owner(n, size, nodes) < upTo then 1 else 0)
  {
    if upTo == 0 {
    } else {
      NextTotal(upTo - 1, n, size, nodes);
      NextCount(upTo - 1, n, size, nodes);
    }
  }

  lemma {:induction false} NoPages(upTo: nat, size: nat, nodes: nat)
    requires size >= 1 && nodes >= 1
    ensures Total(upTo, 0, size, nodes) == 0
  {
    if upTo == 0 {
    } else {
      NoPages(upTo - 1, size, nodes);
      DivUnique(0, size, 0, 0);
      DivUnique(0, nodes, 0, 0);
    }
  }

  /** Over all nodes the counts add up to the table's pages: none is lost, none counted twice. */
  lemma {:induction false} CountsAddUp(pages: nat, size: nat, nodes: nat)
    requires size >= 1 && nodes >= 1
    ensures Total(nodes, pages, size, nodes) == pages
  {
    if pages == 0 {
      NoPages(nodes, size, nodes);
    } else {
      CountsAddUp(pages - 1, size, nodes);
      NextTotal(nodes, pages, size, nodes);
      OwnersAgree(pages, size, nodes);
    }
  }
}
