/**
 * The kernel, file-system and process calls made by the synchroniser, seen as
 * a trace of effects, and the records it hands to the kernel.
 */
module Effects {
  import opened Util

  // Kernel and libnl constants used by the model.
  const AF_INET: int := 2
  const AF_LLC: int := 26
  const PF_BRIDGE: int := 7
  const NTF_MASTER: int := 0x04
  const NUD_REACHABLE: int := 0x02
  const NLM_F_CREATE: int := 0x400
  const NLE_NOMEM: int := 5
  const ATF_COM: int := 0x02
  const SIOCSARP: int := 0x8955
  const ETH_ALEN: nat := 6
  const IFNAMSIZ: nat := 16

  /** An `nl_addr` as it stands when the request is sent. */
  datatype AddrRecord = AddrRecord(family: int, bytes: seq<Byte>, prefixlen: int)

  /** An `rtnl_neigh` as it stands when the request is sent. */
  datatype NeighRecord = NeighRecord(family: int, lladdr: Option<AddrRecord>, flags: int, state: int, ifindex: int)

  /** A `struct sockaddr`: its family and the 14 bytes of `sa_data`. */
  datatype Sockaddr = Sockaddr(family: int, data: seq<Byte>)

  /** A `struct arpreq`; `dev` is the `IFNAMSIZ` characters of `arp_dev`. */
  datatype ArpReq = ArpReq(pa: Sockaddr, ha: Sockaddr, flags: int, netmask: Sockaddr, dev: string)

  /** What one call did to the world outside the process. */
  datatype Effect =
    | CreateTemp(fd: int, path: string)                 // mkstemp succeeded
    | OpenStream(fd: int)                               // fdopen succeeded
    | Write(fd: int, text: string)                      // fprintf into the (buffered) stream
    | Flush(fd: int)                                    // fflush: the file now holds what was written
    | CloseStream(fd: int)                              // fclose: flushes and closes
    | Close(fd: int)                                    // close of a raw descriptor
    | Unlink(path: string)
    | Run(cmd: string, status: int)                     // system()
    | AllocSocket                                       // nl_socket_alloc succeeded
    | Connect(result: int)                              // nl_connect(sk, NETLINK_ROUTE)
    | FreeSocket                                        // nl_socket_free
    | GetLink(ifindex: int)                             // rtnl_link_get_kernel, a read
    | NeighAdd(neigh: NeighRecord, nlFlags: int, result: int)   // rtnl_neigh_add
    | OpenSocket(fd: int)                               // socket(AF_INET, SOCK_DGRAM, 0) gave fd
    | Ioctl(fd: int, request: int, req: ArpReq, result: int)

  /** How many times `e` occurs in `trace`. */
  function Count(trace: seq<Effect>, e: Effect): nat
  {
    multiset(trace)[e]
  }

  /** The reads a lookup sequence issues, in order. */
  function LinkReads(lookups: seq<int>): (t: seq<Effect>)
    ensures |t| == |lookups|
    ensures forall k :: 0 <= k < |t| ==> t[k] == GetLink(lookups[k])
  {
    if lookups == [] then [] else [GetLink(lookups[0])] + LinkReads(lookups[1..])
  }

  /** The C string held in `s`: its characters up to the first NUL. */
  function CString(s: string): (c: string)
    ensures c <= s && '\0' !in c
    ensures |c| < |s| ==> s[|c|] == '\0'
  {
    if s == [] || s[0] == '\0' then [] else [s[0]] + CString(s[1..])
  }

  /** `strncpy(dst, src, n)`: copies the C string in `src`, at most `n`
      characters of it, and pads the rest of `dst` with NUL. */
  function StrNCpy(src: string, n: nat): (dst: string)
    ensures |dst| == n
    ensures forall k :: 0 <= k < n && k < |CString(src)| ==> dst[k] == src[k]
    ensures forall k :: |CString(src)| <= k < n ==> dst[k] == '\0'
  {
    var c := CString(src);
    if |c| >= n then c[..n] else c + Nuls(n - |c|)
  }
}
