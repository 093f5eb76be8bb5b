/**
 * Netlist synthesis: one net per entry of each component's `connections` dictionary, in
 * component order and then in the dictionary's insertion order.
 */
module Netlist {
  import opened Components

  /** A net: the connection key, the index of the owning component and the value stored under the key. */
  datatype Net = Net(name: string, owner: nat, pins: ConnValue)

  /** The nets contributed by component i. */
  function NetsOf(i: nat, c: Component): (r: seq<Net>)
    ensures |r| == |c.connections|
    ensures forall j :: 0 <= j < |r| ==> r[j] == Net(c.connections[j].0, i, c.connections[j].1)
  {
    seq(|c.connections|, j requires 0 <= j < |c.connections| => Net(c.connections[j].0, i, c.connections[j].1))
  }

  /** The nets of the first n components. */
  function NetlistUpTo(cs: seq<Component>, n: nat): seq<Net>
    requires n <= |cs|
  {
    if n == 0 then [] else NetlistUpTo(cs, n - 1) + NetsOf(n - 1, cs[n - 1])
  }

  /** The netlist `_generate_netlist` returns for a component list. */
  function Nets(cs: seq<Component>): seq<Net>
  {
    NetlistUpTo(cs, |cs|)
  }

  /** The number of connection entries of the first i components: where component i's nets start. */
  function Offset(cs: seq<Component>, i: nat): nat
    requires i <= |cs|
  {
    if i == 0 then 0 else Offset(cs, i - 1) + |cs[i - 1].connections|
  }

  lemma {:induction false} OffsetMonotone(cs: seq<Component>, i: nat, j: nat)
    requires i <= j <= |cs|
    ensures Offset(cs, i) + (if i < j then |cs[i].connections| else 0) <= Offset(cs, j)
    decreases j - i
  {
    if i < j {
      OffsetMonotone(cs, i + 1, j);
    }
  }

  /**
   * The prefix for n components holds exactly their connection entries: its length is the
   * number of entries, and the net at position k lies in the block of its owner o and is entry
   * k - Offset(o) of that component's connections.
   */
  lemma {:induction false} NetlistUpToSpec(cs: seq<Component>, n: nat)
    requires n <= |cs|
    ensures |NetlistUpTo(cs, n)| == Offset(cs, n)
    ensures forall k :: 0 <= k < |NetlistUpTo(cs, n)| ==>
      var net := NetlistUpTo(cs, n)[k];
      && net.owner < n
      && Offset(cs, net.owner) <= k < Offset(cs, net.owner) + |cs[net.owner].connections|
      && cs[net.owner].connections[k - Offset(cs, net.owner)] == (net.name, net.pins)
  {
    if n > 0 {
      NetlistUpToSpec(cs, n - 1);
      var prev := NetlistUpTo(cs, n - 1);
      var all := NetlistUpTo(cs, n);
      assert all == prev + NetsOf(n - 1, cs[n - 1]);
      forall k | 0 <= k < |all|
        ensures
          var net := all[k];
          && net.owner < n
          && Offset(cs, net.owner) <= k < Offset(cs, net.owner) + |cs[net.owner].connections|
          && cs[net.owner].connections[k - Offset(cs, net.owner)] == (net.name, net.pins)
      {
        if k < |prev| {
          assert all[k] == prev[k];
        } else {
          assert all[k] == NetsOf(n - 1, cs[n - 1])[k - |prev|];
        }
      }
    }
  }

  /**
   * The netlist has exactly one net per (component, connection key): its size is the total
   * number of entries, every net lies in its owner's block and carries that entry's key and
   * value (so a component without connections owns no net), and the owners never decrease.
   */
  lemma NetsSpec(cs: seq<Component>)
    ensures |Nets(cs)| == Offset(cs, |cs|)
    ensures forall k :: 0 <= k < |Nets(cs)| ==>
      var net := Nets(cs)[k];
      && net.owner < |cs| && |cs[net.owner].connections| > 0
      && Offset(cs, net.owner) <= k < Offset(cs, net.owner) + |cs[net.owner].connections|
      && cs[net.owner].connections[k - Offset(cs, net.owner)] == (net.name, net.pins)
    ensures forall k1, k2 :: 0 <= k1 <= k2 < |Nets(cs)| ==> Nets(cs)[k1].owner <= Nets(cs)[k2].owner
  {
    NetlistUpToSpec(cs, |cs|);
    var nets := Nets(cs);
    forall k1, k2 | 0 <= k1 <= k2 < |nets| ensures nets[k1].owner <= nets[k2].owner {
      var o1, o2 := nets[k1].owner, nets[k2].owner;
      if o2 < o1 {
        OffsetMonotone(cs, o2, o1);
        assert false;
      }
    }
  }

  /** Entry j of component i's connections is the net at position Offset(i) + j, owned by i. */
  lemma NetAt(cs: seq<Component>, i: nat, j: nat)
    requires i < |cs| && j < |cs[i].connections|
    ensures Offset(cs, i) + j < |Nets(cs)|
    ensures Nets(cs)[Offset(cs, i) + j] == Net(cs[i].connections[j].0, i, cs[i].connections[j].1)
  {
    NetsSpec(cs);
    OffsetMonotone(cs, i, |cs|);
    var k := Offset(cs, i) + j;
    var o := Nets(cs)[k].owner;
    if o < i {
      OffsetMonotone(cs, o, i);
      assert false;
    } else if i < o {
      OffsetMonotone(cs, i, o);
      assert false;
    }
  }
}
