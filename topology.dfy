/**
 * `iface_is_bridged`: the kernel's link table seen as a value. A link that
 * `rtnl_link_get_kernel` cannot resolve is simply absent from the map.
 */
module Topology {
  import opened Util

  /** What the resolved link object tells: its master (`rtnl_link_get_master`,
      0 when it has none) and whether it is itself a bridge (`rtnl_link_is_bridge`). */
  datatype Link = Link(master: int, isBridge: bool)

  /** The kernel's links, by interface index. */
  datatype Topology = Topology(links: map<int, Link>)

  /** The answer of one query, with the interface indexes it looked up, in order. */
  datatype Query = Query(bridged: bool, lookups: seq<int>)

  /** Bridge membership with the unknown cases kept apart from the negative ones. */
  datatype Membership = Bridged | NotBridged | Unknown

  /** Reference classification: an unresolvable link or master is `Unknown`. */
  function Classify(topo: Topology, ifindex: int): Membership
  {
    if ifindex !in topo.links then Unknown
    else if topo.links[ifindex].master == 0 then NotBridged
    else if topo.links[ifindex].master !in topo.links then Unknown
    else if topo.links[topo.links[ifindex].master].isBridge then Bridged
    else NotBridged
  }

  /**
   * Looks up `ifindex`; when it resolves and has a master, looks the master
   * up and asks whether it is a bridge. Every other outcome answers false.
   * The query only reads the topology: its whole effect is its lookups.
   */
  function IfaceIsBridged(topo: Topology, ifindex: int): (q: Query)
    ensures q.bridged <==> ifindex in topo.links && topo.links[ifindex].master != 0
                           && topo.links[ifindex].master in topo.links
                           && topo.links[topo.links[ifindex].master].isBridge
    ensures q.bridged <==> Classify(topo, ifindex) == Bridged
    ensures Classify(topo, ifindex) == Unknown ==> !q.bridged
    ensures 1 <= |q.lookups| <= 2 && q.lookups[0] == ifindex
    ensures |q.lookups| == 2 <==> ifindex in topo.links && topo.links[ifindex].master != 0
    ensures |q.lookups| == 2 ==> q.lookups[1] == topo.links[ifindex].master
  {
    var link := if ifindex in topo.links then Some(topo.links[ifindex]) else None;
    if link.Some? && link.value.master != 0 then
      var master := if link.value.master in topo.links then Some(topo.links[link.value.master]) else None;
      Query(master.Some? && master.value.isBridge, [ifindex, link.value.master])
    else
      Query(false, [ifindex])
  }

  /** The answer depends on nothing but the links the query looked up. */
  lemma QueryReadsOnlyItsLookups(t1: Topology, t2: Topology, ifindex: int)
    requires forall i :: i in IfaceIsBridged(t1, ifindex).lookups ==>
               (i in t1.links <==> i in t2.links) && (i in t1.links ==> t1.links[i] == t2.links[i])
    ensures IfaceIsBridged(t1, ifindex) == IfaceIsBridged(t2, ifindex)
  {
  }
}
