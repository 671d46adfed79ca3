/**
 * `add_fdb_entry` and `add_arp_entry`: one bridge forwarding-database entry or
 * one static ARP entry for a relayed client. Each assembles its request field
 * by field and sends at most one request to the kernel.
 */
module Neighbour {
  import opened Util
  import opened Mac
  import opened Topology
  import opened Effects

  /** An `nl_addr`, mutable and shared by reference. */
  class NlAddr {
    var family: int
    var bytes: seq<Byte>
    var prefixlen: int

    /** `nl_addr_alloc`: an empty address of family `AF_UNSPEC`. */
    constructor ()
      ensures family == 0 && bytes == [] && prefixlen == 0
    {
      family, bytes, prefixlen := 0, [], 0;
    }
  }

  /** An `rtnl_neigh`; `lladdr` refers to an `NlAddr` rather than copying it. */
  class RtnlNeigh {
    var family: int
    var lladdr: NlAddr?
    var flags: int
    var state: int
    var ifindex: int

    /** `rtnl_neigh_alloc`: every attribute unset. */
    constructor ()
      ensures family == 0 && lladdr == null && flags == 0 && state == 0 && ifindex == 0
    {
      family, lladdr, flags, state, ifindex := 0, null, 0, 0, 0;
    }

    /** The record as the kernel receives it when the request is sent. */
    function Record(): NeighRecord
      reads this, lladdr
    {
      NeighRecord(family,
                  if lladdr == null then None else Some(AddrRecord(lladdr.family, lladdr.bytes, lladdr.prefixlen)),
                  flags, state, ifindex)
    }
  }

  /** The bridge FDB entry pinning `mac` to port `ifindex`. */
  function FdbRecord(ifindex: int, mac: MacAddr): NeighRecord
  {
    NeighRecord(PF_BRIDGE, Some(AddrRecord(AF_LLC, mac, 48)), NTF_MASTER, NUD_REACHABLE, ifindex)
  }

  /** Whether `add_fdb_entry` stops before sending its request. */
  predicate FdbSkipped(topo: Topology, ifindex: int, sockOk: bool, connectErr: int,
                       addrOk: bool, setAddrErr: int, neighOk: bool)
  {
    !sockOk || connectErr != 0 || !IfaceIsBridged(topo, ifindex).bridged
    || !addrOk || setAddrErr != 0 || !neighOk
  }

  /**
   * The part of `add_fdb_entry` that assembles the neighbour record: allocate
   * the address and set it to `mac`, allocate the neighbour and set its
   * fields. None when one of the three libnl calls fails. The prefix length
   * is set on the address after the neighbour already refers to it, and the
   * record sent carries it.
   */
  method BuildFdbRecord(ifindex: int, mac: MacAddr, addrOk: bool, setAddrErr: int, neighOk: bool)
    returns (rec: Option<NeighRecord>)
    ensures rec == if addrOk && setAddrErr == 0 && neighOk then Some(FdbRecord(ifindex, mac)) else None
  {
    if !addrOk {
      return None;
    }
    var addr := new NlAddr();
    addr.family := AF_LLC;
    if setAddrErr != 0 {
      return None;
    }
    addr.bytes := mac;
    if !neighOk {
      return None;
    }
    var neigh := new RtnlNeigh();
    neigh.family := PF_BRIDGE;
    neigh.lladdr := addr;
    addr.prefixlen := 48;
    neigh.flags := NTF_MASTER;
    neigh.state := NUD_REACHABLE;
    neigh.ifindex := ifindex;
    rec := Some(neigh.Record());
  }

  /**
   * Reference table of what `add_fdb_entry` does: nothing without a socket;
   * otherwise allocate and connect, then (once connected) the link reads of
   * the bridge query, then either the socket is freed and nothing is sent, or
   * the one request is sent and the socket is kept.
   */
  function FdbEffects(topo: Topology, ifindex: int, mac: MacAddr,
                      sockOk: bool, connectErr: int, addrOk: bool, setAddrErr: int,
                      neighOk: bool, addResult: int): seq<Effect>
  {
    if !sockOk then []
    else if connectErr != 0 then [AllocSocket, Connect(connectErr), FreeSocket]
    else
      var connected := [AllocSocket, Connect(0)] + LinkReads(IfaceIsBridged(topo, ifindex).lookups);
      if FdbSkipped(topo, ifindex, sockOk, connectErr, addrOk, setAddrErr, neighOk) then connected + [FreeSocket]
      else connected + [NeighAdd(FdbRecord(ifindex, mac), NLM_F_CREATE, addResult)]
  }

  /**
   * `add_fdb_entry`, as written. Outcome parameters: `nl_socket_alloc`,
   * `nl_connect`, `nl_addr_alloc`, `nl_addr_set_binary_addr`,
   * `rtnl_neigh_alloc` and the result of `rtnl_neigh_add`.
   */
  method AddFdbEntry(topo: Topology, ifindex: int, mac: MacAddr,
                     sockOk: bool, connectErr: int, addrOk: bool, setAddrErr: int,
                     neighOk: bool, addResult: int)
    returns (ret: int, trace: seq<Effect>)
    ensures ret == if FdbSkipped(topo, ifindex, sockOk, connectErr, addrOk, setAddrErr, neighOk) then 1 else addResult
    ensures trace == FdbEffects(topo, ifindex, mac, sockOk, connectErr, addrOk, setAddrErr, neighOk, addResult)
  {
    if !sockOk {
      return 1, [];
    }
    trace := [AllocSocket, Connect(connectErr)];
    if connectErr != 0 {
      return 1, trace + [FreeSocket];
    }
    var q := IfaceIsBridged(topo, ifindex);
    trace := trace + LinkReads(q.lookups);
    if !q.bridged {
      return 1, trace + [FreeSocket];
    }
    var rec := BuildFdbRecord(ifindex, mac, addrOk, setAddrErr, neighOk);
    if rec.None? {
      return 1, trace + [FreeSocket];
    }
    trace := trace + [NeighAdd(rec.value, NLM_F_CREATE, addResult)];
    ret := addResult;
  }

  /** A skipped or failed call sends no request to the kernel. */
  lemma FdbSkipSendsNothing(topo: Topology, ifindex: int, mac: MacAddr,
                            sockOk: bool, connectErr: int, addrOk: bool, setAddrErr: int,
                            neighOk: bool, addResult: int)
    requires FdbSkipped(topo, ifindex, sockOk, connectErr, addrOk, setAddrErr, neighOk)
    ensures var t := FdbEffects(topo, ifindex, mac, sockOk, connectErr, addrOk, setAddrErr, neighOk, addResult);
      forall k :: 0 <= k < |t| ==> !t[k].NeighAdd?
  {
  }

  /** Otherwise exactly one request is sent, as the last effect: a `PF_BRIDGE`
      entry for `mac` (prefix length 48) on `ifindex`, flagged `NTF_MASTER`,
      state `NUD_REACHABLE`, created with `NLM_F_CREATE`. */
  lemma FdbSendsOneRequest(topo: Topology, ifindex: int, mac: MacAddr,
                           sockOk: bool, connectErr: int, addrOk: bool, setAddrErr: int,
                           neighOk: bool, addResult: int)
    requires !FdbSkipped(topo, ifindex, sockOk, connectErr, addrOk, setAddrErr, neighOk)
    ensures var t := FdbEffects(topo, ifindex, mac, sockOk, connectErr, addrOk, setAddrErr, neighOk, addResult);
      && |t| > 0 && t[|t| - 1] == NeighAdd(FdbRecord(ifindex, mac), NLM_F_CREATE, addResult)
      && (forall k :: 0 <= k < |t| - 1 ==> !t[k].NeighAdd?)
      && FdbRecord(ifindex, mac).lladdr.value.bytes == mac
  {
  }

  /** Between connecting and its verdict the call only reads links: the bridge
      query's lookups, in order. */
  lemma FdbOnlyReadsBeforeVerdict(topo: Topology, ifindex: int, mac: MacAddr,
                                  sockOk: bool, addrOk: bool, setAddrErr: int,
                                  neighOk: bool, addResult: int)
    requires sockOk
    ensures var t := FdbEffects(topo, ifindex, mac, sockOk, 0, addrOk, setAddrErr, neighOk, addResult);
      var n := |IfaceIsBridged(topo, ifindex).lookups|;
      && |t| == n + 3 && t[0] == AllocSocket && t[1] == Connect(0)
      && (forall k :: 2 <= k < n + 2 ==> t[k] == GetLink(IfaceIsBridged(topo, ifindex).lookups[k - 2]))
  {
  }

  /** As written, every early return frees the socket, but the path that sends
      the request never does. */
  lemma FdbSocketLeaksAfterRequest(topo: Topology, ifindex: int, mac: MacAddr,
                                   sockOk: bool, connectErr: int, addrOk: bool, setAddrErr: int,
                                   neighOk: bool, addResult: int)
    ensures var t := FdbEffects(topo, ifindex, mac, sockOk, connectErr, addrOk, setAddrErr, neighOk, addResult);
      && Count(t, AllocSocket) == (if sockOk then 1 else 0)
      && Count(t, FreeSocket) == (if FdbSkipped(topo, ifindex, sockOk, connectErr, addrOk, setAddrErr, neighOk) && sockOk then 1 else 0)
  {
  }

  /** `add_fdb_entry` with the socket freed after the request too, so that every
      path releases it. */
  method AddFdbEntryReleasing(topo: Topology, ifindex: int, mac: MacAddr,
                              sockOk: bool, connectErr: int, addrOk: bool, setAddrErr: int,
                              neighOk: bool, addResult: int)
    returns (ret: int, trace: seq<Effect>)
    ensures ret == if FdbSkipped(topo, ifindex, sockOk, connectErr, addrOk, setAddrErr, neighOk) then 1 else addResult
    ensures Count(trace, FreeSocket) == Count(trace, AllocSocket)
    ensures Count(trace, AllocSocket) == (if sockOk then 1 else 0)
    ensures !FdbSkipped(topo, ifindex, sockOk, connectErr, addrOk, setAddrErr, neighOk) ==>
      trace == FdbEffects(topo, ifindex, mac, sockOk, connectErr, addrOk, setAddrErr, neighOk, addResult) + [FreeSocket]
    ensures FdbSkipped(topo, ifindex, sockOk, connectErr, addrOk, setAddrErr, neighOk) ==>
      trace == FdbEffects(topo, ifindex, mac, sockOk, connectErr, addrOk, setAddrErr, neighOk, addResult)
  {
    ret, trace := AddFdbEntry(topo, ifindex, mac, sockOk, connectErr, addrOk, setAddrErr, neighOk, addResult);
    FdbSocketLeaksAfterRequest(topo, ifindex, mac, sockOk, connectErr, addrOk, setAddrErr, neighOk, addResult);
    if |trace| > 0 && trace[|trace| - 1].NeighAdd? {
      trace := trace + [FreeSocket];
    }
  }

  // ---------------------------------------------------------------------
  // add_arp_entry

  /** The four bytes of `sin_addr`, in memory (network) order. */
  type Ipv4 = s: seq<Byte> | |s| == 4 witness [0, 0, 0, 0]

  /** The request `add_arp_entry` hands to `ioctl(SIOCSARP)`: zeroed, then an
      `AF_INET` protocol address, the hardware address, `ATF_COM` and the
      device name. */
  predicate IsArpRequest(req: ArpReq, ip: Ipv4, mac: MacAddr, name: string)
  {
    && req.pa == Sockaddr(AF_INET, [0, 0] + ip + Zeros(8))
    && req.ha.family == 0 && |req.ha.data| == 14 && req.ha.data[..6] == mac && req.ha.data[6..] == Zeros(8)
    && req.flags == ATF_COM
    && req.netmask == Sockaddr(0, Zeros(14))
    && req.dev == StrNCpy(name, IFNAMSIZ)
  }

  /** Builds the request field by field, as `add_arp_entry` does after `bzero`. */
  method BuildArpRequest(ip: Ipv4, mac: MacAddr, name: string) returns (req: ArpReq)
    ensures IsArpRequest(req, ip, mac, name)
    ensures req.pa.data[2..6] == ip && |req.dev| == IFNAMSIZ
  {
    req := ArpReq(Sockaddr(0, Zeros(14)), Sockaddr(0, Zeros(14)), 0, Sockaddr(0, Zeros(14)), Nuls(IFNAMSIZ));
    req := req.(pa := req.pa.(family := AF_INET));
    req := req.(pa := req.pa.(data := req.pa.data[..2] + ip + req.pa.data[6..]));
    req := req.(ha := req.ha.(data := mac + req.ha.data[6..]));
    req := req.(flags := ATF_COM);
    req := req.(dev := StrNCpy(name, IFNAMSIZ));
  }

  /**
   * `add_arp_entry`, as written. `fd` is what `socket(AF_INET, SOCK_DGRAM, 0)`
   * returned (negative on failure) and `ioctlResult` the result of the ioctl.
   * A descriptor of 0 is taken for a failure.
   */
  method AddArpEntry(ifname: int -> string, ifindex: int, mac: MacAddr, ip: Ipv4, fd: int, ioctlResult: int)
    returns (ret: int, trace: seq<Effect>)
    ensures fd < 1 ==> ret == -1 && trace == (if fd == 0 then [OpenSocket(0)] else [])
    ensures fd >= 1 ==>
      && ret == (if ioctlResult < 0 then -1 else 0)
      && |trace| == 3 && trace[0] == OpenSocket(fd) && trace[2] == Close(fd)
      && trace[1].Ioctl? && trace[1].fd == fd && trace[1].request == SIOCSARP
      && trace[1].result == ioctlResult
      && IsArpRequest(trace[1].req, ip, mac, ifname(ifindex))
  {
    var name := ifname(ifindex);
    var req := BuildArpRequest(ip, mac, name);
    trace := if fd >= 0 then [OpenSocket(fd)] else [];
    if fd < 1 {
      return -1, trace;
    }
    trace := trace + [Ioctl(fd, SIOCSARP, req, ioctlResult)];
    if ioctlResult < 0 {
      return -1, trace + [Close(fd)];
    }
    trace := trace + [Close(fd)];
    ret := 0;
  }

  /** `add_arp_entry` with only a negative descriptor taken for a failure. */
  method AddArpEntryChecked(ifname: int -> string, ifindex: int, mac: MacAddr, ip: Ipv4, fd: int, ioctlResult: int)
    returns (ret: int, trace: seq<Effect>)
    ensures fd < 0 ==> ret == -1 && trace == []
    ensures fd >= 0 ==>
      && ret == (if ioctlResult < 0 then -1 else 0)
      && |trace| == 3 && trace[0] == OpenSocket(fd) && trace[2] == Close(fd)
      && trace[1].Ioctl? && trace[1].fd == fd && trace[1].request == SIOCSARP
      && trace[1].result == ioctlResult
      && IsArpRequest(trace[1].req, ip, mac, ifname(ifindex))
    // every descriptor opened is closed exactly once
    ensures Count(trace, OpenSocket(fd)) == Count(trace, Close(fd)) == (if fd >= 0 then 1 else 0)
  {
    var name := ifname(ifindex);
    var req := BuildArpRequest(ip, mac, name);
    if fd < 0 {
      return -1, [];
    }
    trace := [OpenSocket(fd)];
    trace := trace + [Ioctl(fd, SIOCSARP, req, ioctlResult)];
    if ioctlResult < 0 {
      return -1, trace + [Close(fd)];
    }
    trace := trace + [Close(fd)];
    ret := 0;
  }

  /** With descriptor 0 the code as written sends no request and never closes
      the descriptor it was given; the corrected version closes it. */
  method ArpDescriptorZero(ifname: int -> string, ifindex: int, mac: MacAddr, ip: Ipv4)
    returns (asWritten: seq<Effect>, corrected: seq<Effect>)
    ensures Count(asWritten, OpenSocket(0)) == 1 && Count(asWritten, Close(0)) == 0
    ensures Count(corrected, OpenSocket(0)) == 1 && Count(corrected, Close(0)) == 1
  {
    var r1, r2;
    r1, asWritten := AddArpEntry(ifname, ifindex, mac, ip, 0, 0);
    r2, corrected := AddArpEntryChecked(ifname, ifindex, mac, ip, 0, 0);
  }
}
