/** Walking the node list of a tree as a ring: every node sends to the next one, and Start sends from the root. */
module Ring {

  function Next(i: nat, n: nat): (j: nat)
    requires i < n
    ensures j < n
  {
    if i + 1 == n then 0 else i + 1
  }

  /** The node the j-th hop reaches. */
  function Position(root: nat, n: nat, j: nat): (p: nat)
    requires root < n && j < 2 * n
    ensures p < n
  {
    var d := root + 1 + (if j < n then j else j - n);
    if d < n then d else d - n
  }

  lemma PositionIs(root: nat, n: nat, j: nat)
    requires root < n && j < 2 * n
    ensures Position(root, n, 0) == Next(root, n)
    ensures j + 1 < 2 * n ==> Position(root, n, j + 1) == Next(Position(root, n, j), n)
    ensures Position(root, n, j) == root <==> j == n - 1 || j == 2 * n - 1
    ensures Position(root, n, j) == Position(root, n, if j < n then j else j - n)
  {
  }

  lemma OnePosition(root: nat, n: nat, j: nat)
    requires root < n && j < n
    ensures forall k :: 0 <= k < n && k != j ==> Position(root, n, k) != Position(root, n, j)
  {
  }
}
