/** Circular doubly linked lists whose nodes live inside the objects they list
    (include/rtos/intrusive_list.hpp), refined by disjoint sequences of nodes. */
module IntrusiveList {
  import opened Sequences

  /** All rings of a program: list `l` is the dummy node `heads[l]` followed by
      `contents[l]`; the nodes in `free` are on no list. */
  datatype Rings = Rings(
    nodes: set<ListNode>,
    heads: seq<ListNode>,
    contents: seq<seq<ListNode>>,
    free: set<ListNode>)

  ghost function Ring(w: Rings, l: nat): (r: seq<ListNode>)
    requires l < |w.heads| == |w.contents|
  {
    [w.heads[l]] + w.contents[l]
  }

  ghost predicate OnRing(w: Rings, l: nat, i: nat) {
    l < |w.heads| == |w.contents| && i < |Ring(w, l)|
  }

  /** Every node is at one place only. */
  ghost predicate Apart(w: Rings) {
    && |w.heads| == |w.contents|
    && w.free <= w.nodes
    && (forall l: nat, i: nat :: OnRing(w, l, i) ==> Ring(w, l)[i] in w.nodes && Ring(w, l)[i] !in w.free)
    && (forall l: nat, i: nat, m: nat, j: nat :: OnRing(w, l, i) && OnRing(w, m, j) ==>
          (Ring(w, l)[i] == Ring(w, m)[j] ==> l == m && i == j))
  }

  /** The pointers of all nodes. */
  datatype Links = Links(next: map<ListNode, ListNode>, prev: map<ListNode, ListNode>)

  function After(i: nat, n: nat): nat {
    if i + 1 == n then 0 else i + 1
  }

  ghost predicate Over(k: Links, nodes: set<ListNode>) {
    k.next.Keys == nodes && k.prev.Keys == nodes
  }

  /** Along each ring `next` leads forward and `prev` leads back: they are mutually inverse. */
  ghost predicate Fits(w: Rings, k: Links) {
    && Apart(w) && Over(k, w.nodes)
    && (forall l: nat, i: nat :: OnRing(w, l, i) ==> Joined(w, k, l, i))
    && (forall n {:trigger n in w.free} :: n in w.free ==> k.next[n] == n && k.prev[n] == n)
  }

  ghost predicate Joined(w: Rings, k: Links, l: nat, i: nat)
    requires OnRing(w, l, i)
  {
    var r := Ring(w, l);
    var j := After(i, |r|);
    r[i] in k.next && r[j] in k.prev && k.next[r[i]] == r[j] && k.prev[r[j]] == r[i]
  }

  ghost function LinksOf(nodes: set<ListNode>): Links
    reads nodes
  {
    Links(map n | n in nodes :: n.next, map n | n in nodes :: n.prev)
  }

  ghost predicate Represents(w: Rings)
    reads w.nodes
  {
    Fits(w, LinksOf(w.nodes))
  }

  // ---------------------------------------------------------------- abstract operations

  /** The node leaves whichever list holds it; everything else stays. */
  ghost function Unlinked(w: Rings, n: ListNode): Rings {
    w.(contents := seq(|w.contents|, l requires 0 <= l < |w.contents| => Remove(w.contents[l], n)),
       free := w.free + {n})
  }

  ghost function Inserted(w: Rings, n: ListNode, l: nat, i: nat): Rings
    requires l < |w.contents| && i <= |w.contents[l]|
  {
    w.(contents := w.contents[l := InsertAt(w.contents[l], i, n)], free := w.free - {n})
  }

  // ---------------------------------------------------------------- unlinking

  lemma {:induction false} RemoveAt<T>(s: seq<T>, i: nat)
    requires NoDup(s) && i < |s|
    ensures Remove(s, s[i]) == s[..i] + s[i + 1..]
  {
    if i > 0 {
      assert s[0] != s[i];
      RemoveAt(s[1..], i - 1);
    }
  }

  lemma ContentsApart(w: Rings, l: nat)
    requires Apart(w) && l < |w.heads|
    ensures NoDup(w.contents[l])
    ensures forall n :: n in w.contents[l] ==> n !in w.free
  {
    forall i, j | 0 <= i < j < |w.contents[l]| ensures w.contents[l][i] != w.contents[l][j] {
      assert OnRing(w, l, i + 1) && OnRing(w, l, j + 1);
      assert Ring(w, l)[i + 1] == w.contents[l][i] && Ring(w, l)[j + 1] == w.contents[l][j];
    }
    forall n | n in w.contents[l] ensures n !in w.free {
      var i :| 0 <= i < |w.contents[l]| && w.contents[l][i] == n;
      assert OnRing(w, l, i + 1) && Ring(w, l)[i + 1] == n;
    }
  }

  /** Unlinking a node that is on no list changes nothing. */
  lemma UnlinkedFree(w: Rings, n: ListNode)
    requires Apart(w) && n in w.free
    ensures Unlinked(w, n) == w
  {
    forall l | 0 <= l < |w.contents| ensures Unlinked(w, n).contents[l] == w.contents[l] {
      ContentsApart(w, l);
    }
  }

  lemma UnlinkedRing(w: Rings, l: nat, i: nat, m: nat)
    requires Apart(w) && OnRing(w, l, i) && i > 0 && m < |w.heads|
    ensures Ring(Unlinked(w, Ring(w, l)[i]), m) ==
            if m == l then Ring(w, l)[..i] + Ring(w, l)[i + 1..] else Ring(w, m)
  {
    var n := Ring(w, l)[i];
    ContentsApart(w, m);
    if m == l {
      assert n == w.contents[l][i - 1];
      RemoveAt(w.contents[l], i - 1);
    } else {
      NotOnOther(w, l, i, m);
    }
  }

  lemma NotOnOther(w: Rings, l: nat, i: nat, m: nat)
    requires Apart(w) && OnRing(w, l, i) && i > 0 && m < |w.heads| && m != l
    ensures |w.contents| == |w.heads| && Ring(w, l)[i] !in w.contents[m]
  {
    forall j | 0 <= j < |w.contents[m]| ensures w.contents[m][j] != Ring(w, l)[i] {
      assert OnRing(w, m, j + 1) && Ring(w, m)[j + 1] == w.contents[m][j];
    }
  }

  /** Where an element of a ring was before the node at place `i` of ring `l` left. */
  function Shifted(l: nat, i: nat, m: nat, j: nat): nat {
    if m == l && j >= i then j + 1 else j
  }

  lemma UnlinkedPlace(w: Rings, l: nat, i: nat, m: nat, j: nat)
    requires Apart(w) && OnRing(w, l, i) && i > 0
    requires OnRing(Unlinked(w, Ring(w, l)[i]), m, j)
    ensures OnRing(w, m, Shifted(l, i, m, j))
    ensures Ring(Unlinked(w, Ring(w, l)[i]), m)[j] == Ring(w, m)[Shifted(l, i, m, j)] != Ring(w, l)[i]
    ensures |Ring(Unlinked(w, Ring(w, l)[i]), m)| == |Ring(w, m)| - if m == l then 1 else 0
  {
    UnlinkedRing(w, l, i, m);
  }

  lemma UnlinkedApart(w: Rings, l: nat, i: nat)
    requires Apart(w) && OnRing(w, l, i) && i > 0
    ensures Apart(Unlinked(w, Ring(w, l)[i]))
  {
    var w' := Unlinked(w, Ring(w, l)[i]);
    assert OnRing(w, l, i);
    forall m: nat, j: nat | OnRing(w', m, j) ensures Ring(w', m)[j] in w'.nodes && Ring(w', m)[j] !in w'.free {
      UnlinkedPlace(w, l, i, m, j);
    }
    forall m: nat, j: nat, m2: nat, j2: nat
      | OnRing(w', m, j) && OnRing(w', m2, j2) && Ring(w', m)[j] == Ring(w', m2)[j2]
      ensures m == m2 && j == j2
    {
      UnlinkedPlace(w, l, i, m, j);
      UnlinkedPlace(w, l, i, m2, j2);
    }
  }

  ghost function UnlinkLinks(k: Links, n: ListNode): Links
    requires n in k.next && n in k.prev
  {
    var p, x := k.prev[n], k.next[n];
    Links(k.next[p := x][n := n], k.prev[x := p][n := n])
  }

  lemma UnlinkedJoined(w: Rings, k: Links, l: nat, i: nat, m: nat, j: nat)
    requires Fits(w, k) && OnRing(w, l, i) && i > 0
    requires OnRing(Unlinked(w, Ring(w, l)[i]), m, j)
    ensures Ring(w, l)[i] in k.next && Ring(w, l)[i] in k.prev
    ensures Joined(Unlinked(w, Ring(w, l)[i]), UnlinkLinks(k, Ring(w, l)[i]), m, j)
  {
    var n := Ring(w, l)[i];
    var w' := Unlinked(w, n);
    var r, r' := Ring(w, m), Ring(w', m);
    var j' := After(j, |r'|);
    var s, s' := Shifted(l, i, m, j), Shifted(l, i, m, j');
    UnlinkedPlace(w, l, i, m, j);
    UnlinkedPlace(w, l, i, m, j');
    assert Joined(w, k, l, i) && Joined(w, k, l, i - 1);
    assert Joined(w, k, m, s);
    if m == l && s == i - 1 {
      assert s' == After(i, |r|);
    } else {
      assert s' == After(s, |r|);
      assert r[s] != Ring(w, l)[i - 1];
    }
  }

  lemma UnlinkFits(w: Rings, k: Links, l: nat, i: nat)
    requires Fits(w, k) && OnRing(w, l, i) && i > 0
    ensures Ring(w, l)[i] in k.next && Ring(w, l)[i] in k.prev
    ensures Fits(Unlinked(w, Ring(w, l)[i]), UnlinkLinks(k, Ring(w, l)[i]))
  {
    var n := Ring(w, l)[i];
    var w' := Unlinked(w, n);
    UnlinkedApart(w, l, i);
    assert Joined(w, k, l, i) && Joined(w, k, l, i - 1);
    forall m: nat, j: nat | OnRing(w', m, j) ensures Joined(w', UnlinkLinks(k, n), m, j) {
      UnlinkedJoined(w, k, l, i, m, j);
    }
  }

  // ---------------------------------------------------------------- inserting

  /** What is at place `j` of ring `m` after `n` went behind place `c` of ring `l`. */
  lemma InsertedPlace(w: Rings, n: ListNode, l: nat, c: nat, m: nat, j: nat)
    requires Apart(w) && OnRing(w, l, c) && OnRing(Inserted(w, n, l, c), m, j)
    ensures var r := Ring(Inserted(w, n, l, c), m);
            && |r| == |Ring(w, m)| + (if m == l then 1 else 0)
            && (if m == l && j == c + 1 then r[j] == n
                else var s := if m == l && j > c then j - 1 else j as int;
                     s >= 0 && OnRing(w, m, s) && r[j] == Ring(w, m)[s])
  {
  }

  lemma InsertedApart(w: Rings, n: ListNode, l: nat, c: nat)
    requires Apart(w) && OnRing(w, l, c) && n in w.free
    ensures Apart(Inserted(w, n, l, c))
  {
    var w' := Inserted(w, n, l, c);
    forall m: nat, j: nat | OnRing(w', m, j) ensures Ring(w', m)[j] in w'.nodes && Ring(w', m)[j] !in w'.free {
      InsertedPlace(w, n, l, c, m, j);
    }
    forall m: nat, j: nat, m2: nat, j2: nat
      | OnRing(w', m, j) && OnRing(w', m2, j2) && Ring(w', m)[j] == Ring(w', m2)[j2]
      ensures m == m2 && j == j2
    {
      InsertedPlace(w, n, l, c, m, j);
      InsertedPlace(w, n, l, c, m2, j2);
    }
  }

  ghost function InsertLinks(k: Links, n: ListNode, pos: ListNode): Links
    requires pos in k.prev
  {
    var p := k.prev[pos];
    Links(k.next[n := pos][p := n], k.prev[n := p][pos := n])
  }

  lemma InsertedJoined(w: Rings, k: Links, n: ListNode, l: nat, c: nat, m: nat, j: nat)
    requires Fits(w, k) && OnRing(w, l, c) && n in w.free && OnRing(Inserted(w, n, l, c), m, j)
    ensures Joined(w, k, l, c)
    ensures Joined(Inserted(w, n, l, c), InsertLinks(k, n, Ring(w, l)[After(c, |Ring(w, l)|)]), m, j)
  {
    var r, r' := Ring(w, m), Ring(Inserted(w, n, l, c), m);
    InsertedPlace(w, n, l, c, m, j);
    InsertedPlace(w, n, l, c, m, After(j, |r'|));
    assert Joined(w, k, l, c);
    if m != l || (j != c && j != c + 1) {
      var s := if m == l && j > c then j - 1 else j;
      assert Joined(w, k, m, s);
      assert r[s] != Ring(w, l)[c];
      assert r[After(s, |r|)] != Ring(w, l)[After(c, |Ring(w, l)|)];
    }
  }

  lemma InsertFits(w: Rings, k: Links, n: ListNode, l: nat, c: nat)
    requires Fits(w, k) && OnRing(w, l, c) && n in w.free
    ensures Joined(w, k, l, c)
    ensures Fits(Inserted(w, n, l, c), InsertLinks(k, n, Ring(w, l)[After(c, |Ring(w, l)|)]))
  {
    var w' := Inserted(w, n, l, c);
    var pos := Ring(w, l)[After(c, |Ring(w, l)|)];
    InsertedApart(w, n, l, c);
    assert Joined(w, k, l, c);
    assert OnRing(w, l, After(c, |Ring(w, l)|));
    forall m: nat, j: nat | OnRing(w', m, j) ensures Joined(w', InsertLinks(k, n, pos), m, j) {
      InsertedJoined(w, k, n, l, c, m, j);
    }
  }

  // ---------------------------------------------------------------- the code

  /** The node is on a list or on none; dummy nodes are neither. */
  ghost predicate Placed(w: Rings, n: ListNode) {
    n in w.free || exists l: nat, i: nat :: OnRing(w, l, i) && i > 0 && Ring(w, l)[i] == n
  }

  lemma UnlinkLinksAre(k: Links, k': Links, n: ListNode)
    requires n in k.next && n in k.prev && k.prev[n] in k.next && k.next[n] in k.prev
    requires k'.next.Keys == k.next.Keys && k'.prev.Keys == k.prev.Keys
    requires forall y :: y in k.next ==>
               k'.next[y] == if y == n then n else if y == k.prev[n] then k.next[n] else k.next[y]
    requires forall y :: y in k.prev ==>
               k'.prev[y] == if y == n then n else if y == k.next[n] then k.prev[n] else k.prev[y]
    ensures k' == UnlinkLinks(k, n)
  {
  }

  lemma UnlinkPlaced(w: Rings, k: Links, n: ListNode)
    requires Fits(w, k) && n in w.nodes && Placed(w, n)
    ensures n in k.next && n in k.prev && k.next[n] in w.nodes && k.prev[n] in w.nodes
    ensures Fits(Unlinked(w, n), UnlinkLinks(k, n))
    ensures n in w.free ==> Unlinked(w, n) == w
  {
    if n in w.free {
      UnlinkedFree(w, n);
      assert UnlinkLinks(k, n) == k;
    } else {
      var l: nat, i: nat :| OnRing(w, l, i) && i > 0 && Ring(w, l)[i] == n;
      assert Joined(w, k, l, i) && Joined(w, k, l, i - 1);
      UnlinkFits(w, k, l, i);
    }
  }

  class ListNode {
    var prev: ListNode
    var next: ListNode

    constructor ()
      ensures prev == this && next == this
    {
      prev := this;
      next := this;
    }

    predicate Linked()
      reads this
    {
      next != this
    }

    /** The node leaves whichever list holds it; every other list, and the order of all that
        remain, are as before. On no list, nothing happens. */
    method Unlink(ghost w: Rings)
      requires Represents(w) && this in w.nodes && Placed(w, this)
      modifies this, prev, next
      ensures Represents(Unlinked(w, this)) && prev == this && next == this
      ensures this in w.free ==> Unlinked(w, this) == w
    {
      hide Fits, Placed;
      ghost var k := LinksOf(w.nodes);
      UnlinkPlaced(w, k, this);
      ghost var p, x := prev, next;
      prev.next := next;
      next.prev := prev;
      prev, next := this, this;
      assert forall y :: y in w.nodes ==> y.next == if y == this then this else if y == p then x else k.next[y];
      assert forall y :: y in w.nodes ==> y.prev == if y == this then this else if y == x then p else k.prev[y];
      UnlinkLinksAre(k, LinksOf(w.nodes), this);
    }

    /** The node, on no list yet, goes before `pos`. */
    method InsertBefore(ghost w: Rings, pos: ListNode, ghost l: nat, ghost c: nat)
      requires Represents(w) && this in w.free
      requires OnRing(w, l, c) && pos == Ring(w, l)[After(c, |Ring(w, l)|)]
      modifies this, pos, pos.prev
      ensures Represents(Inserted(w, this, l, c))
    {
      ghost var k := LinksOf(w.nodes);
      InsertFits(w, k, this, l, c);
      prev := pos.prev;
      next := pos;
      pos.prev.next := this;
      pos.prev := this;
      assert LinksOf(w.nodes) == InsertLinks(k, this, pos);
    }
  }

  /** What the first link of a ring says about its list. */
  lemma FirstLink(w: Rings, l: nat)
    requires Represents(w) && l < |w.heads|
    ensures w.heads[l].next in w.nodes
    ensures w.contents[l] == [] <==> w.heads[l].next == w.heads[l]
    ensures w.contents[l] != [] ==> w.heads[l].next == w.contents[l][0] && Placed(w, w.contents[l][0])
  {
    assert OnRing(w, l, 0) && Joined(w, LinksOf(w.nodes), l, 0);
    if w.contents[l] != [] {
      assert OnRing(w, l, 1) && Ring(w, l)[1] == w.contents[l][0];
    }
  }

  /** What the link of a listed node says: the next one, or the dummy node at the end. */
  lemma NextLink(w: Rings, l: nat, i: nat)
    requires Represents(w) && l < |w.heads| == |w.contents| && i < |w.contents[l]|
    ensures w.contents[l][i] in w.nodes && Placed(w, w.contents[l][i]) && w.contents[l][i] != w.heads[l]
    ensures w.contents[l][i].next == if i + 1 < |w.contents[l]| then w.contents[l][i + 1] else w.heads[l]
  {
    assert OnRing(w, l, i + 1) && Joined(w, LinksOf(w.nodes), l, i + 1);
    assert OnRing(w, l, 0) && Ring(w, l)[i + 1] == w.contents[l][i];
  }

  /** The last link of a ring is where `push_back` inserts. */
  lemma LastPlace(w: Rings, l: nat)
    requires Apart(w) && l < |w.heads|
    ensures OnRing(w, l, |w.contents[l]|)
    ensures After(|w.contents[l]|, |Ring(w, l)|) == 0 && Ring(w, l)[0] == w.heads[l] && w.heads[l] in w.nodes
  {
    assert OnRing(w, l, 0);
  }

  /** The list without the chosen nodes, order kept. */
  ghost function Kept(s: seq<ListNode>, chosen: set<ListNode>): seq<ListNode> {
    if s == [] then [] else (if s[0] in chosen then [] else [s[0]]) + Kept(s[1..], chosen)
  }

  lemma Regroup<T>(a: seq<T>, b: seq<T>, c: seq<T>)
    ensures (a + b) + c == a + (b + c)
  {
  }

  lemma KeptStep(kept: seq<ListNode>, rest: seq<ListNode>, chosen: set<ListNode>)
    requires rest != []
    ensures (if rest[0] in chosen then kept else kept + [rest[0]]) + Kept(rest[1..], chosen)
            == kept + Kept(rest, chosen)
  {
    var x, r := rest[0], Kept(rest[1..], chosen);
    assert Kept(rest, chosen) == (if x in chosen then [] else [x]) + r;
    hide Kept;
    Regroup(kept, [x], r);
    assert [] + r == r;
  }

  class List {
    const head: ListNode

    constructor ()
      ensures fresh(head) && head.next == head && head.prev == head
    {
      head := new ListNode();
    }

    predicate Empty()
      reads head
    {
      !head.Linked()
    }

    method PushBack(ghost w: Rings, ghost l: nat, n: ListNode)
      requires Represents(w) && l < |w.heads| && w.heads[l] == head && n in w.free
      modifies n, head, head.prev
      ensures |w.contents| == |w.heads|
      ensures Represents(w.(contents := w.contents[l := w.contents[l] + [n]], free := w.free - {n}))
    {
      LastPlace(w, l);
      n.InsertBefore(w, head, l, |w.contents[l]|);
      assert InsertAt(w.contents[l], |w.contents[l]|, n) == w.contents[l] + [n];
    }

    method Front(ghost w: Rings, ghost l: nat) returns (n: ListNode?)
      requires Represents(w) && l < |w.heads| && w.heads[l] == head
      ensures |w.contents| == |w.heads|
      ensures n == if w.contents[l] == [] then null else w.contents[l][0]
    {
      FirstLink(w, l);
      n := if Empty() then null else head.next;
    }

    method PopFront(ghost w: Rings, ghost l: nat) returns (n: ListNode?)
      requires Represents(w) && l < |w.heads| && w.heads[l] == head
      modifies w.nodes
      ensures |w.contents| == |w.heads|
      ensures w.contents[l] == [] ==> n == null && Represents(w) && forall x :: x in w.nodes ==> unchanged(x)
      ensures w.contents[l] != [] ==> n == w.contents[l][0]
      ensures w.contents[l] != [] ==>
        Represents(w.(contents := w.contents[l := w.contents[l][1..]], free := w.free + {w.contents[l][0]}))
    {
      FirstLink(w, l);
      if Empty() {
        return null;
      }
      n := head.next;
      PoppedIs(w, l);
      LinksInside(w, n);
      n.Unlink(w);
    }

    /** The node after those kept so far leaves the list. */
    method UnlinkFirst(ghost w: Rings, ghost l: nat, ghost kept: seq<ListNode>, ghost rest: seq<ListNode>, n: ListNode)
        returns (ghost w': Rings)
      requires Represents(w) && l < |w.heads| && |w.contents| == |w.heads|
      requires w.contents[l] == kept + rest && rest != [] && n == rest[0]
      modifies w.nodes
      ensures Represents(w') && w'.nodes == w.nodes && w'.heads == w.heads
      ensures w'.contents == w.contents[l := kept + rest[1..]]
    {
      hide Fits, Placed, Apart;
      Sizes(w);
      UnlinkedMiddle(w, l, kept, rest);
      NextLink(w, l, |kept|);
      LinksInside(w, n);
      n.Unlink(w);
      w' := Unlinked(w, n);
    }

    /** The traversal of `EventGroup::set`: the successor is read before the node is unlinked.
        It visits each node that was on the list, in order, and leaves those not chosen. */
    method UnlinkChosen(ghost w: Rings, ghost l: nat, chosen: set<ListNode>)
        returns (ghost w': Rings, ghost visited: seq<ListNode>)
      requires Represents(w) && l < |w.heads| && w.heads[l] == head
      modifies w.nodes
      ensures |w.contents| == |w.heads| && visited == w.contents[l]
      ensures Represents(w') && w'.nodes == w.nodes && w'.heads == w.heads
      ensures |w'.contents| == |w.contents| && w'.contents[l] == Kept(w.contents[l], chosen)
      ensures forall m :: 0 <= m < |w.contents| && m != l ==> w'.contents[m] == w.contents[m]
    {
      hide Fits, Placed, Apart;
      Sizes(w);
      w', visited := w, [];
      ghost var kept, rest := [], w.contents[l];
      FirstLink(w, l);
      var n := head.next;
      while n != head
        invariant Represents(w') && w'.nodes == w.nodes && w'.heads == w.heads && |w'.contents| == |w.contents|
        invariant w'.contents[l] == kept + rest
        invariant forall m :: 0 <= m < |w.contents| && m != l ==> w'.contents[m] == w.contents[m]
        invariant kept + Kept(rest, chosen) == Kept(w.contents[l], chosen)
        invariant visited + rest == w.contents[l]
        invariant n == if rest == [] then head else rest[0]
        decreases |rest|
      {
        Sizes(w');
        NextLink(w', l, |kept|);
        var next := n.next;
        KeptStep(kept, rest, chosen);
        if n in chosen {
          w' := UnlinkFirst(w', l, kept, rest, n);
        } else {
          assert (kept + [n]) + rest[1..] == kept + rest;
          kept := kept + [n];
        }
        visited, rest := visited + [n], rest[1..];
        n := next;
      }
      if rest != [] { NextLink(w', l, |kept|); }
    }
  }

  lemma Sizes(w: Rings)
    requires Represents(w)
    ensures Apart(w) && |w.contents| == |w.heads|
  {
  }

  lemma LinksInside(w: Rings, n: ListNode)
    requires Represents(w) && n in w.nodes && Placed(w, n)
    ensures n.next in w.nodes && n.prev in w.nodes
  {
    UnlinkPlaced(w, LinksOf(w.nodes), n);
  }

  lemma PoppedIs(w: Rings, l: nat)
    requires Apart(w) && l < |w.heads| && w.contents[l] != []
    ensures Unlinked(w, w.contents[l][0])
            == w.(contents := w.contents[l := w.contents[l][1..]], free := w.free + {w.contents[l][0]})
  {
    UnlinkedMiddle(w, l, [], w.contents[l]);
  }

  lemma UnlinkedMiddle(w: Rings, l: nat, kept: seq<ListNode>, rest: seq<ListNode>)
    requires Apart(w) && l < |w.heads| && w.contents[l] == kept + rest && rest != []
    ensures Unlinked(w, rest[0]).contents == w.contents[l := kept + rest[1..]]
  {
    var c := |kept|;
    assert w.contents[l][c] == rest[0] && OnRing(w, l, c + 1) && Ring(w, l)[c + 1] == rest[0];
    forall m | 0 <= m < |w.heads| ensures Unlinked(w, rest[0]).contents[m] == w.contents[l := kept + rest[1..]][m] {
      UnlinkedContents(w, l, c + 1, m);
    }
  }

  lemma UnlinkedContents(w: Rings, l: nat, i: nat, m: nat)
    requires Apart(w) && OnRing(w, l, i) && i > 0 && m < |w.heads|
    ensures Unlinked(w, Ring(w, l)[i]).contents[m] ==
            if m == l then w.contents[l][..i - 1] + w.contents[l][i..] else w.contents[m]
  {
    UnlinkedRing(w, l, i, m);
    assert Ring(Unlinked(w, Ring(w, l)[i]), m)[1..] == Unlinked(w, Ring(w, l)[i]).contents[m];
    assert Ring(w, m)[1..] == w.contents[m];
    if m == l { assert (Ring(w, l)[..i] + Ring(w, l)[i + 1..])[1..] == w.contents[l][..i - 1] + w.contents[l][i..]; }
  }
}
