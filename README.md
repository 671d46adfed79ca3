# dhcp-helper kernel-state synchroniser, modelled in Dafny

This project models `src/misc.c` of dhcp-helper, the DHCP relay agent for
bridged Layer-2 segments. The file keeps three kinds of kernel state in line
with the relay's interface groups:

- an nftables rule set that drops DHCP server traffic (UDP port 67) entering
  on bridged interfaces;
- bridge forwarding-database (FDB) entries that pin a relayed client's MAC
  address to its port;
- static ARP entries for relayed clients.

The kernel, the `nft` tool and the C library are not visible here. Each
foreign call becomes an outcome parameter (did `mkstemp` succeed, what did
`nl_connect` return, what descriptor did `socket` give, ...). What a call
does to the world is recorded in a returned trace of `Effects.Effect` values:
temporary-file creation and unlink, stream writes and `fclose`, `system()`
runs, netlink socket allocation and release, link reads, the neighbour-add
request, the ARP ioctl and descriptor closes. The kernel link table is a
value (`Topology.Topology`), a map from interface index to link.

Files:

- `util.dfy`: `Option`, `Byte`, zero padding.
- `mac.dfy`: `mac_ntoa`, with a parser for its output.
- `topology.dfy`: `iface_is_bridged`.
- `effects.dfy`: the effect trace, the records sent to the kernel
  (`rtnl_neigh`, `nl_addr`, `struct arpreq`) and the kernel constants.
- `nftables.dfy`: the rule script, the generator loops, `setup_nftables`
  with its `goto` cleanup chain, and `cleanup_nftables`.
- `neighbour.dfy`: `add_fdb_entry` and `add_arp_entry`.

Each stateful routine is an imperative method. The generator's two nested
`TAILQ_FOREACH` passes are `while` loops that append to the stream text. The
`goto err_free_sk / err_close_fp / err_unlink` chain is a set of nested
labeled blocks left with `break`. The `rtnl_neigh` and `nl_addr` objects are
classes, and fields are set one by one, in source order. The prefix length is
set on the address after the neighbour already refers to it, so the record
that is sent carries length 48 only because the two objects share it. Each
method is proved against a reference definition: the script function
`Nftables.Script`, the per-stage effect tables `Nftables.SetupEffects` and
`Neighbour.FdbEffects`, and `Neighbour.IsArpRequest`. Lemmas then prove the
promised properties about those definitions.

## Model

| member | source | states |
|---|---|---|
| `Mac.MacNtoa` | src/misc.c:36-43 | 17 characters: the six bytes as two-digit upper-case hex pairs, in byte order, with `:` at positions 2, 5, 8, 11 and 14 |
| `Mac.Hex2` | src/misc.c:40 | `%02X` of one byte is two upper-case hex digits |
| `Mac.HexDigit` | src/misc.c:40 | one `%X` digit is `0`-`9` or `A`-`F` and has the nibble's value |
| `Mac.ParseHexDigit` | src/misc.c:40 | reads exactly the digits `%X` writes and inverts `HexDigit` |
| `Mac.Hex2RoundTrip` | src/misc.c:40 | reading back a `%02X` pair gives the original byte |
| `Mac.Hex2Canonical` | src/misc.c:40 | every accepted pair is the `%02X` form of its value |
| `Mac.MacRoundTrip` | src/misc.c:36-43 | parsing the formatted address gives back the original six bytes |
| `Mac.MacCanonical` | src/misc.c:36-43 | every string the parser accepts is exactly the text `mac_ntoa` writes for the result |
| `Mac.MacNtoaInjective` | src/misc.c:36-43 | different addresses never format to the same text |
| `Mac.MacAlphabet` | src/misc.c:40 | the text holds only upper-case hex digits and colons |
| `Topology.IfaceIsBridged` | src/misc.c:45-58 | true exactly when the link resolves, its master index is nonzero, the master resolves and is a bridge. It agrees with the tri-state `Classify`, and an unknown link or master counts as not bridged. It looks up the interface first and its master second, and nothing else |
| `Topology.QueryReadsOnlyItsLookups` | src/misc.c:45-58 | the answer depends only on the links the query looked up |
| `Effects.LinkReads` | src/misc.c:49-52 | the link reads of a query, one `GetLink` per lookup, in order |
| `Effects.CString` | src/misc.c:229 | the C string in a buffer: a prefix with no NUL, ending at the first NUL when there is one |
| `Effects.StrNCpy` | src/misc.c:229 | `strncpy` into `IFNAMSIZ` bytes: the name's C string, cut at `IFNAMSIZ`, then NUL-padded |
| `Nftables.ForwardHeaderSpacing` | src/misc.c:34 | the trailing space of the forward chain name leaves `chain dhcpr-forward  {` with two spaces |
| `Nftables.ForwardRuleIsBroadcastInputRule` | src/misc.c:102-115 | a forward-chain rule is the input-chain rule prefixed with `pkttype broadcast ` |
| `Nftables.EmitGroupRules` | src/misc.c:98-104 | the inner loop appends, in list order, one rule per bridged interface of the group |
| `Nftables.EmitRules` | src/misc.c:97-105 | the outer loop appends the rules of every group, in group order |
| `Nftables.GenerateScript` | src/misc.c:95-121 | the stream receives exactly `Script`: table header, input chain, forward chain, closing braces and final newline |
| `Nftables.GroupRulesAreLines` | src/misc.c:98-104 | one group's rules are one rule per bridged interface, in interface order |
| `Nftables.ChainRulesAreLines` | src/misc.c:97-118 | a chain holds one rule per bridged interface, ordered by group and then by interface |
| `Nftables.BridgedOnlyMembers` | src/misc.c:99 | an interface gets a rule if and only if it is configured and bridged |
| `Nftables.FlattenMembers` | src/misc.c:97-98 | the configured interfaces are exactly those of some group |
| `Nftables.BridgedGroupOrder` | src/misc.c:97-98 | the rules of earlier groups come before those of later ones |
| `Nftables.ScriptShape` | src/misc.c:95-121 | the script is `table bridge filter {`, the input chain header, its rules, `}`, the forward chain header, the same interfaces' broadcast rules in the same order, `}\n}` and `\n` |
| `Nftables.LinesAt` | src/misc.c:102 | the k-th rule of a chain names the k-th bridged interface |
| `Nftables.NoBridgedInterfaces` | src/misc.c:95-121 | with no bridged interface both chains hold only their header and closing brace |
| `Nftables.OneBridgedPort` | src/misc.c:99-115 | one bridged port `br0-port1` next to an unbridged interface gives exactly one input rule and one broadcast forward rule, both for `br0-port1` |
| `Nftables.TempPath` | src/misc.c:64 | the temporary file name is the 23-character `/tmp/dhcp-helper.` plus six characters |
| `Nftables.NftCommand` | src/misc.c:123 | `nft -f FILE` fits the 256-byte buffer, so `snprintf` never truncates it |
| `Nftables.SetupNftables` | src/misc.c:71-134 | returns 1 when `mkstemp` or `fdopen` fails, `-NLE_NOMEM` when socket allocation fails, the `nl_connect` code when connect fails, and otherwise 0 whatever `nft` returns. Its effects are exactly the `SetupEffects` row of the stage it reached |
| `Nftables.SetupReleasesResources` | src/misc.c:77-132 | once the temporary file exists it is unlinked exactly once, as the last step. The stream, or the bare descriptor when `fdopen` failed, is closed exactly once. The netlink socket is freed exactly once when allocated |
| `Nftables.SetupWithoutTempFile` | src/misc.c:71-75 | a failed `mkstemp` has no effect at all, not even an unlink |
| `Nftables.SetupRunsNftOnlyWhenConnected` | src/misc.c:91-130 | `nft -f FILE` runs exactly once when connect succeeded and never otherwise. It runs after the script is written and before `fclose` flushes the stream |
| `Nftables.SetupRunsNftBeforeFlush` | src/misc.c:95-130 | as written, on the full path `nft` runs with no `fflush` or `fclose` between writing the script and `system()` |
| `Nftables.SetupNftablesFlushed` | src/misc.c:71-134 | corrected: the same return codes as `SetupNftables`, and the `SetupEffectsFlushed` trace, which flushes the stream before `nft` runs |
| `Nftables.SetupFlushedNftSeesScript` | src/misc.c:95-130 | corrected: every `nft` run comes after a flush with no write in between, so the file holds the whole script |
| `Nftables.SetupFlushedReleasesResources` | src/misc.c:127-132 | corrected: the flush keeps the release discipline of `SetupReleasesResources` |
| `Nftables.CleanupNftables` | src/misc.c:137-143 | both chain deletions run, in order, whatever the first one's status, and no status reaches the caller |
| `Nftables.ScriptDeclaresInputChain` | src/misc.c:96 | the chain that teardown deletes first is declared by the script |
| `Nftables.ScriptDeclaresForwardChain` | src/misc.c:108 | the chain that teardown deletes second, trailing space included, is declared by the script |
| `Neighbour.NlAddr.constructor` | src/misc.c:175 | `nl_addr_alloc` yields an empty, unspecified-family address |
| `Neighbour.RtnlNeigh.constructor` | src/misc.c:192 | `rtnl_neigh_alloc` yields a neighbour with no attribute set |
| `Neighbour.BuildFdbRecord` | src/misc.c:175-203 | when all three libnl allocations and the address copy succeed, the record is `PF_BRIDGE`, lladdr = `mac` of family `AF_LLC` with prefix length 48, flags `NTF_MASTER`, state `NUD_REACHABLE`, on `ifindex`; otherwise there is none |
| `Neighbour.AddFdbEntry` | src/misc.c:152-209 | returns 1 when socket allocation, connect, the bridge check, address allocation or setting, or neighbour allocation fails, and otherwise the add's result. Its effects are exactly the `FdbEffects` table |
| `Neighbour.FdbSkipSendsNothing` | src/misc.c:158-197 | a skipped or failed call sends no neighbour-add request |
| `Neighbour.FdbSendsOneRequest` | src/misc.c:198-208 | otherwise exactly one request is sent, as the last effect, with `NLM_F_CREATE` and the FDB record |
| `Neighbour.FdbOnlyReadsBeforeVerdict` | src/misc.c:158-174 | after allocating and connecting, the call only reads links, namely the bridge query's lookups, until it decides |
| `Neighbour.FdbSocketLeaksAfterRequest` | src/misc.c:158-209 | the socket is allocated once when allocation succeeds and freed on every early return, but never after the request is sent |
| `Neighbour.AddFdbEntryReleasing` | src/misc.c:206-208 | corrected: same result and request, and the socket is freed exactly as often as it is allocated |
| `Neighbour.BuildArpRequest` | src/misc.c:222-229 | the zeroed request gets an `AF_INET` protocol address holding the IPv4 address, hardware bytes = `mac` with the rest zero, flags `ATF_COM`, and the interface name copied by `strncpy` |
| `Neighbour.AddArpEntry` | src/misc.c:211-246 | `fd < 1` gives -1 and no ioctl. Otherwise one `SIOCSARP` ioctl carries the request, the descriptor is closed once, and the result is -1 if the ioctl failed, else 0 |
| `Neighbour.AddArpEntryChecked` | src/misc.c:231-241 | corrected: only a negative descriptor counts as a failure, and every descriptor opened is closed exactly once |
| `Neighbour.ArpDescriptorZero` | src/misc.c:231-235 | with descriptor 0 the code as written opens it and never closes it, while the corrected version closes it |

## Left out

- Logging (`syslog`, `syslog2`, `inet_ntoa`) is not modelled. In the model `mac_ntoa` is a pure function; its only caller uses it for log text.
- The static buffer of `mac_ntoa`, and the lifetime of its result, are C storage concerns and are not modelled.
- `if_indextoname` is a total function from index to name (`ifname`). Its failure, which leaves `ifname` unset, is not modelled.
- libnl is not visible. `rtnl_link_get_kernel`, `rtnl_link_is_bridge`, `nl_socket_alloc`, `nl_connect`, `nl_addr_*`, `rtnl_neigh_alloc` and `rtnl_neigh_add` are outcome parameters or topology lookups. Reference counts and the `nl_addr`/`rtnl_neigh` objects that are never released are not traced.
- IfaceIsBridged: when a lookup fails the C code goes on with a pointer `rtnl_link_get_kernel` did not set. The model treats an unresolved link, or an unresolved master, as not bridged.
- The two `iface_is_bridged` calls per interface in `setup_nftables` see one fixed topology. Their link reads are not listed in that method's trace; they are listed in the trace of `add_fdb_entry`.
- The `fprintf` calls become one `Write` effect holding the whole text the stream received. `fprintf` write errors and buffer sizes are not modelled: the model treats text as reaching the file only at an `fflush` or `fclose`, which is what a fully buffered stream does with a script smaller than its buffer.
- What `system()` and `nft` do to the kernel rule set is not modelled, only the exit status.
- The kernel's validation of the ARP request is not modelled, only the ioctl's result. The model records that the hardware address family stays 0 after `bzero`.
- The dead store `err = -NLE_NOMEM` at src/misc.c:178 has no effect (the function returns 1) and is not modelled.
- Concurrent use of the shared temporary file is not modelled. All operations are single calls.
- tests/check_config.c exercises a configuration reader that is not part of this model.
- The model follows the code as written; in particular:
  - `setup_nftables` runs `nft` on the file before anything flushes the stream (see "## Findings");
  - `add_fdb_entry` returns 1 both when the interface is not bridged and when a call fails, so the caller cannot tell a skip from a failure;
  - `add_fdb_entry` does not release its socket on the success path (see "## Findings");
  - `add_arp_entry` treats descriptor 0 as a failure (see "## Findings").

## Findings

| source | as written | input that shows it | evidently intended | confidence | as-written member | corrected member |
|---|---|---|---|---|---|---|
| src/misc.c:231-235 | `fd < 1` counts descriptor 0 as a failed `socket()`: it returns -1 without the ioctl and never closes descriptor 0 | `socket()` returns 0 (standard input closed); see `Neighbour.ArpDescriptorZero` | `fd < 0`: use descriptor 0 and close it | medium, not executed | `Neighbour.AddArpEntry` | `Neighbour.AddArpEntryChecked` |
| src/misc.c:206-208 | after `rtnl_neigh_add` the function returns without `nl_socket_free(sk)`, although every early return frees it | a bridged interface where every allocation succeeds | free the socket after the request, as on every other path | high, not executed | `Neighbour.FdbSocketLeaksAfterRequest` | `Neighbour.AddFdbEntryReleasing` |
| src/misc.c:119-125 | the script is written with `fprintf` to a stream opened by `fdopen`, and `system("nft -f FILE")` runs before `fclose(fp)` at line 130, with no `fflush` | any run where connect succeeds: the script (a few hundred bytes) is smaller than the stream buffer, so it is still in the buffer when `nft` opens the file | `fflush(fp)` (or `fclose`) before `system()` | high, not executed | `Nftables.SetupRunsNftBeforeFlush` | `Nftables.SetupNftablesFlushed` |
