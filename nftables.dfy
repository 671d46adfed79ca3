/**
 * `setup_nftables` and `cleanup_nftables`: the rule script that drops DHCP
 * server traffic entering on bridged interfaces, the temporary file and
 * netlink socket it is produced with, and the teardown of its two chains.
 */
module Nftables {
  import opened Util
  import opened Topology
  import opened Effects

  /** Chain names. The forward chain's name carries a trailing space. */
  const InChain: string := "dhcpr-input"
  const FwdChain: string := "dhcpr-forward "

  const TableOpen: string := "table bridge filter {\n"
  const InHeader: string := ChainDecl(InChain) + "\n type filter hook input priority -200\n"
  const FwdHeader: string := ChainDecl(FwdChain) + "\n type filter hook forward priority -200\n"
  const ChainClose: string := "}\n"
  const TableClose: string := "}\n}"

  datatype Chain = Input | Forward

  /** The opening of a chain called `name`. */
  function ChainDecl(name: string): string
  {
    "chain " + name + " {"
  }

  /** The forward chain's trailing space leaves two spaces before its brace. */
  lemma ForwardHeaderSpacing()
    ensures ChainDecl(FwdChain) == "chain dhcpr-forward  {"
  {
  }

  /** Interface groups from the configuration, each an ordered list of interface indexes. */
  type Groups = seq<seq<int>>

  /** The drop rule one bridged interface contributes to a chain. */
  function Rule(c: Chain, name: string): string
  {
    match c
    case Input => "iif " + name + " ip protocol udp udp dport 67 drop\n"
    case Forward => "pkttype broadcast iif " + name + " ip protocol udp udp dport 67 drop\n"
  }

  /** A forward rule is the input rule restricted to broadcast packets. */
  lemma ForwardRuleIsBroadcastInputRule(name: string)
    ensures Rule(Forward, name) == "pkttype broadcast " + Rule(Input, name)
  {
  }

  /** The rules one pass over a group's interfaces writes, built up in list order. */
  function GroupRules(c: Chain, topo: Topology, ifname: int -> string, ifaces: seq<int>): string
  {
    if ifaces == [] then ""
    else
      var last := ifaces[|ifaces| - 1];
      GroupRules(c, topo, ifname, ifaces[..|ifaces| - 1])
      + (if IfaceIsBridged(topo, last).bridged then Rule(c, ifname(last)) else "")
  }

  /** The rules one pass over all groups writes. */
  function ChainRules(c: Chain, topo: Topology, ifname: int -> string, groups: Groups): string
  {
    if groups == [] then ""
    else ChainRules(c, topo, ifname, groups[..|groups| - 1]) + GroupRules(c, topo, ifname, groups[|groups| - 1])
  }

  /** The whole script `setup_nftables` writes into its temporary file. */
  function Script(topo: Topology, ifname: int -> string, groups: Groups): string
  {
    TableOpen + InHeader + ChainRules(Input, topo, ifname, groups) + ChainClose
    + FwdHeader + ChainRules(Forward, topo, ifname, groups) + TableClose + "\n"
  }

  // ---------------------------------------------------------------------
  // A second, independent view of the rules: filter, then format.

  /** All configured interfaces, group by group. */
  function Flatten(groups: Groups): seq<int>
  {
    if groups == [] then [] else groups[0] + Flatten(groups[1..])
  }

  /** The bridged interfaces of `ifaces`, in their order. */
  function BridgedOnly(topo: Topology, ifaces: seq<int>): seq<int>
  {
    if ifaces == [] then []
    else (if IfaceIsBridged(topo, ifaces[0]).bridged then [ifaces[0]] else []) + BridgedOnly(topo, ifaces[1..])
  }

  /** One rule per listed interface. */
  function Lines(c: Chain, ifname: int -> string, ifaces: seq<int>): string
  {
    if ifaces == [] then "" else Rule(c, ifname(ifaces[0])) + Lines(c, ifname, ifaces[1..])
  }

  lemma {:induction false} FlattenSnoc(groups: Groups, g: seq<int>)
    ensures Flatten(groups + [g]) == Flatten(groups) + g
  {
    if groups != [] {
      assert (groups + [g])[1..] == groups[1..] + [g];
      FlattenSnoc(groups[1..], g);
    }
  }

  lemma {:induction false} BridgedOnlyAppend(topo: Topology, a: seq<int>, b: seq<int>)
    ensures BridgedOnly(topo, a + b) == BridgedOnly(topo, a) + BridgedOnly(topo, b)
  {
    if a != [] {
      assert (a + b)[1..] == a[1..] + b;
      BridgedOnlyAppend(topo, a[1..], b);
    } else {
      assert a + b == b;
    }
  }

  lemma {:induction false} LinesAppend(c: Chain, ifname: int -> string, a: seq<int>, b: seq<int>)
    ensures Lines(c, ifname, a + b) == Lines(c, ifname, a) + Lines(c, ifname, b)
  {
    if a != [] {
      assert (a + b)[1..] == a[1..] + b;
      LinesAppend(c, ifname, a[1..], b);
    } else {
      assert a + b == b;
    }
  }

  lemma {:induction false} GroupRulesAreLines(c: Chain, topo: Topology, ifname: int -> string, ifaces: seq<int>)
    ensures GroupRules(c, topo, ifname, ifaces) == Lines(c, ifname, BridgedOnly(topo, ifaces))
  {
    if ifaces != [] {
      var init, last := ifaces[..|ifaces| - 1], ifaces[|ifaces| - 1];
      assert ifaces == init + [last];
      GroupRulesAreLines(c, topo, ifname, init);
      BridgedOnlyAppend(topo, init, [last]);
      LinesAppend(c, ifname, BridgedOnly(topo, init), BridgedOnly(topo, [last]));
      assert BridgedOnly(topo, [last]) == (if IfaceIsBridged(topo, last).bridged then [last] else []);
    }
  }

  /** The nested loops write, for each chain, exactly one rule per bridged
      interface, group by group and then interface by interface. */
  lemma {:induction false} ChainRulesAreLines(c: Chain, topo: Topology, ifname: int -> string, groups: Groups)
    ensures ChainRules(c, topo, ifname, groups) == Lines(c, ifname, BridgedOnly(topo, Flatten(groups)))
  {
    if groups != [] {
      var init, last := groups[..|groups| - 1], groups[|groups| - 1];
      assert groups == init + [last];
      ChainRulesAreLines(c, topo, ifname, init);
      GroupRulesAreLines(c, topo, ifname, last);
      FlattenSnoc(init, last);
      BridgedOnlyAppend(topo, Flatten(init), last);
      LinesAppend(c, ifname, BridgedOnly(topo, Flatten(init)), BridgedOnly(topo, last));
    }
  }

  /** The interfaces that receive rules are exactly the configured, bridged ones. */
  lemma {:induction false} BridgedOnlyMembers(topo: Topology, ifaces: seq<int>, x: int)
    ensures x in BridgedOnly(topo, ifaces) <==> x in ifaces && IfaceIsBridged(topo, x).bridged
  {
    if ifaces != [] {
      BridgedOnlyMembers(topo, ifaces[1..], x);
      assert ifaces == [ifaces[0]] + ifaces[1..];
    }
  }

  lemma {:induction false} FlattenMembers(groups: Groups, x: int)
    ensures x in Flatten(groups) <==> exists g :: 0 <= g < |groups| && x in groups[g]
  {
    if groups != [] {
      FlattenMembers(groups[1..], x);
      if x in Flatten(groups[1..]) {
        var g :| 0 <= g < |groups[1..]| && x in groups[1..][g];
        assert x in groups[g + 1];
      }
      if exists g :: 0 <= g < |groups| && x in groups[g] {
        var g :| 0 <= g < |groups| && x in groups[g];
        if g > 0 { assert x in groups[1..][g - 1]; }
      }
    }
  }

  /** The bridged interfaces of a group list are those of its first part followed
      by those of its second: rules keep the configured group order. */
  lemma {:induction false} BridgedGroupOrder(topo: Topology, g1: Groups, g2: Groups)
    ensures BridgedOnly(topo, Flatten(g1 + g2)) == BridgedOnly(topo, Flatten(g1)) + BridgedOnly(topo, Flatten(g2))
  {
    FlattenAppend(g1, g2);
    BridgedOnlyAppend(topo, Flatten(g1), Flatten(g2));
  }

  lemma {:induction false} FlattenAppend(g1: Groups, g2: Groups)
    ensures Flatten(g1 + g2) == Flatten(g1) + Flatten(g2)
  {
    if g1 != [] {
      assert (g1 + g2)[1..] == g1[1..] + g2;
      FlattenAppend(g1[1..], g2);
    } else {
      assert g1 + g2 == g2;
    }
  }

  /**
   * The script is one `table bridge filter` block holding the input chain and
   * then the forward chain; both chains list the same bridged interfaces in
   * the same order, and nothing else.
   */
  lemma ScriptShape(topo: Topology, ifname: int -> string, groups: Groups)
    ensures var bridged := BridgedOnly(topo, Flatten(groups));
      Script(topo, ifname, groups) ==
        TableOpen + InHeader + Lines(Input, ifname, bridged) + ChainClose
        + FwdHeader + Lines(Forward, ifname, bridged) + TableClose + "\n"
  {
    ChainRulesAreLines(Input, topo, ifname, groups);
    ChainRulesAreLines(Forward, topo, ifname, groups);
  }

  /** The k-th rule of each chain names the k-th bridged interface. */
  lemma {:induction false} LinesAt(c: Chain, ifname: int -> string, ifaces: seq<int>, k: nat)
    requires k < |ifaces|
    ensures exists pre, post :: Lines(c, ifname, ifaces) == pre + Rule(c, ifname(ifaces[k])) + post
                                && pre == Lines(c, ifname, ifaces[..k])
  {
    var pre, post := Lines(c, ifname, ifaces[..k]), Lines(c, ifname, ifaces[k + 1..]);
    assert ifaces == ifaces[..k] + ([ifaces[k]] + ifaces[k + 1..]);
    LinesAppend(c, ifname, ifaces[..k], [ifaces[k]] + ifaces[k + 1..]);
    LinesAppend(c, ifname, [ifaces[k]], ifaces[k + 1..]);
    assert Lines(c, ifname, [ifaces[k]]) == Rule(c, ifname(ifaces[k]));
    assert Lines(c, ifname, ifaces) == pre + Rule(c, ifname(ifaces[k])) + post;
  }

  /** With no bridged interface both chains hold only their header and closing brace. */
  lemma NoBridgedInterfaces(topo: Topology, ifname: int -> string, groups: Groups)
    requires forall g :: 0 <= g < |groups| ==> forall x :: x in groups[g] ==> !IfaceIsBridged(topo, x).bridged
    ensures Script(topo, ifname, groups) ==
      TableOpen + InHeader + ChainClose + FwdHeader + TableClose + "\n"
  {
    var bridged := BridgedOnly(topo, Flatten(groups));
    if bridged != [] {
      BridgedOnlyMembers(topo, Flatten(groups), bridged[0]);
      FlattenMembers(groups, bridged[0]);
      assert false;
    }
    ScriptShape(topo, ifname, groups);
  }

  /** One bridged port `br0-port1` (index 5, enslaved to bridge 1) next to an
      unbridged interface 6 in the same group. */
  lemma OneBridgedPort(ifname: int -> string)
    requires ifname(5) == "br0-port1"
    ensures var topo := Topology(map[1 := Link(0, true), 5 := Link(1, false), 6 := Link(0, false)]);
      Script(topo, ifname, [[5, 6]]) ==
        TableOpen + InHeader + Rule(Input, "br0-port1") + ChainClose
        + FwdHeader + Rule(Forward, "br0-port1") + TableClose + "\n"
  {
    var topo := Topology(map[1 := Link(0, true), 5 := Link(1, false), 6 := Link(0, false)]);
    assert IfaceIsBridged(topo, 5).bridged && !IfaceIsBridged(topo, 6).bridged;
    assert Flatten([[5, 6]]) == [5, 6];
    assert BridgedOnly(topo, [6]) == [];
    assert [5, 6][1..] == [6];
    assert BridgedOnly(topo, Flatten([[5, 6]])) == [5];
    ScriptShape(topo, ifname, [[5, 6]]);
  }

  // ---------------------------------------------------------------------
  // The generator as the source runs it.

  /** The inner `TAILQ_FOREACH`: a rule for each bridged interface of one group,
      appended to what was written so far. */
  method EmitGroupRules(c: Chain, topo: Topology, ifname: int -> string, ifaces: seq<int>, written: string)
    returns (text: string)
    ensures text == written + GroupRules(c, topo, ifname, ifaces)
  {
    text := written;
    var i := 0;
    while i < |ifaces|
      invariant 0 <= i <= |ifaces|
      invariant text == written + GroupRules(c, topo, ifname, ifaces[..i])
    {
      var iface := ifaces[i];
      assert ifaces[..i + 1][..i] == ifaces[..i];
      if IfaceIsBridged(topo, iface).bridged {
        AppendAssoc(written, GroupRules(c, topo, ifname, ifaces[..i]), Rule(c, ifname(iface)));
        text := text + Rule(c, ifname(iface));
      }
      i := i + 1;
    }
    assert ifaces[..i] == ifaces;
  }

  /** The outer `TAILQ_FOREACH` over the groups, in configuration order. */
  method EmitRules(c: Chain, topo: Topology, ifname: int -> string, groups: Groups, written: string)
    returns (text: string)
    ensures text == written + ChainRules(c, topo, ifname, groups)
  {
    text := written;
    var g := 0;
    while g < |groups|
      invariant 0 <= g <= |groups|
      invariant text == written + ChainRules(c, topo, ifname, groups[..g])
    {
      assert groups[..g + 1][..g] == groups[..g];
      AppendAssoc(written, ChainRules(c, topo, ifname, groups[..g]), GroupRules(c, topo, ifname, groups[g]));
      text := EmitGroupRules(c, topo, ifname, groups[g], text);
      g := g + 1;
    }
    assert groups[..g] == groups;
  }

  lemma AppendAssoc(a: string, b: string, c: string)
    ensures a + b + c == a + (b + c)
  {
  }

  /** Everything `setup_nftables` writes into the stream, in `fprintf` order. */
  method GenerateScript(topo: Topology, ifname: int -> string, groups: Groups) returns (text: string)
    ensures text == Script(topo, ifname, groups)
  {
    text := TableOpen;
    text := text + InHeader;
    text := EmitRules(Input, topo, ifname, groups, text);
    text := text + ChainClose;
    text := text + FwdHeader;
    text := EmitRules(Forward, topo, ifname, groups, text);
    text := text + TableClose;
    text := text + "\n";
  }

  /** The six characters `mkstemp` puts in place of `XXXXXX`. */
  type TempSuffix = s: string | |s| == 6 witness "XXXXXX"

  /** A successful `mkstemp`: the descriptor and the name it chose. */
  datatype TempFile = TempFile(fd: nat, suffix: TempSuffix)

  function TempPath(suffix: TempSuffix): (path: string)
    ensures |path| == 23
  {
    "/tmp/dhcp-helper." + suffix
  }

  /** The command handed to `system()`; it always fits the 256-byte buffer, so
      `snprintf` never truncates it. */
  function NftCommand(path: string): (cmd: string)
    ensures |path| == 23 ==> |cmd| < 256
  {
    "nft -f " + path
  }

  /** How far `setup_nftables` gets before its first failure. */
  datatype Stage = NoTempFile | NoStream | NoSocket | NotConnected | Connected

  function StageReached(mkstemp: Option<TempFile>, fdopenOk: bool, sockOk: bool, connectErr: int): Stage
  {
    if mkstemp.None? then NoTempFile
    else if !fdopenOk then NoStream
    else if !sockOk then NoSocket
    else if connectErr != 0 then NotConnected
    else Connected
  }

  /**
   * Reference table of what `setup_nftables` does, one row per stage: the
   * resources acquired so far, then their release in reverse order. On the
   * full path the script goes into the stream, `nft` runs on the file, and
   * only afterwards is the stream flushed and closed by `fclose`.
   */
  function SetupEffects(mkstemp: Option<TempFile>, fdopenOk: bool, sockOk: bool, connectErr: int,
                        script: string, nftStatus: int): seq<Effect>
  {
    match mkstemp
    case None => []
    case Some(tmp) =>
      var fd, path := tmp.fd, TempPath(tmp.suffix);
      match StageReached(mkstemp, fdopenOk, sockOk, connectErr)
      case NoStream => [CreateTemp(fd, path), Close(fd), Unlink(path)]
      case NoSocket => [CreateTemp(fd, path), OpenStream(fd), CloseStream(fd), Unlink(path)]
      case NotConnected =>
        [CreateTemp(fd, path), OpenStream(fd), AllocSocket, Connect(connectErr),
         FreeSocket, CloseStream(fd), Unlink(path)]
      case _ =>
        [CreateTemp(fd, path), OpenStream(fd), AllocSocket, Connect(0),
         Write(fd, script), Run(NftCommand(path), nftStatus),
         FreeSocket, CloseStream(fd), Unlink(path)]
  }

  /**
   * `setup_nftables`. Every foreign call is an outcome parameter: `mkstemp`
   * (None when it fails), `fdopen`, `nl_socket_alloc`, the `nl_connect` error
   * code and the exit status of the `nft` command. The labeled blocks are the
   * `goto` targets `err_free_sk`, `err_close_fp` and `err_unlink`.
   */
  method SetupNftables(topo: Topology, ifname: int -> string, groups: Groups,
                       mkstemp: Option<TempFile>, fdopenOk: bool, sockOk: bool,
                       connectErr: int, nftStatus: int)
    returns (err: int, trace: seq<Effect>)
    // return codes: the nft status is never one of them
    ensures err == (if mkstemp.None? || !fdopenOk then 1
                    else if !sockOk then -NLE_NOMEM
                    else connectErr)
    ensures trace == SetupEffects(mkstemp, fdopenOk, sockOk, connectErr, Script(topo, ifname, groups), nftStatus)
  {
    if mkstemp.None? {
      return 1, [];
    }
    var fd := mkstemp.value.fd;
    var path := TempPath(mkstemp.value.suffix);
    trace := [CreateTemp(fd, path)];
    err := 0;
    label errUnlink: {
      if !fdopenOk {
        trace := trace + [Close(fd)];
        err := 1;
        break errUnlink;
      }
      trace := trace + [OpenStream(fd)];
      label errCloseFp: {
        if !sockOk {
          err := -NLE_NOMEM;
          break errCloseFp;
        }
        trace := trace + [AllocSocket];
        label errFreeSk: {
          err := connectErr;
          trace := trace + [Connect(err)];
          if err != 0 {
            break errFreeSk;
          }
          var text := GenerateScript(topo, ifname, groups);
          trace := trace + [Write(fd, text)];
          trace := trace + [Run(NftCommand(path), nftStatus)];
        }
        trace := trace + [FreeSocket];
      }
      trace := trace + [CloseStream(fd)];
    }
    trace := trace + [Unlink(path)];
  }

  /** The command deleting one chain of the bridge filter table. */
  function DeleteCommand(chain: string): string
  {
    "nft  delete chain bridge filter " + chain
  }

  /** `cleanup_nftables`: both deletions are attempted whatever the first one's
      status, and neither status reaches the caller. */
  method CleanupNftables(inStatus: int, fwdStatus: int) returns (trace: seq<Effect>)
    ensures trace == [Run(DeleteCommand(InChain), inStatus), Run(DeleteCommand(FwdChain), fwdStatus)]
  {
    trace := [Run(DeleteCommand(InChain), inStatus)];
    trace := trace + [Run(DeleteCommand(FwdChain), fwdStatus)];
  }

  /** `s` declares a chain called `name`. */
  predicate Declares(s: string, name: string)
  {
    exists k :: 0 <= k <= |s| && ChainDecl(name) <= s[k..]
  }

  lemma DeclaresAfter(pre: string, name: string, post: string)
    ensures Declares(pre + (ChainDecl(name) + post), name)
  {
    var s := pre + (ChainDecl(name) + post);
    assert s[|pre|..] == ChainDecl(name) + post;
  }

  /** The script declares the input chain that teardown deletes by name. */
  lemma ScriptDeclaresInputChain(topo: Topology, ifname: int -> string, groups: Groups)
    ensures Declares(Script(topo, ifname, groups), InChain)
  {
    var tail := "\n type filter hook input priority -200\n";
    var rest := ChainRules(Input, topo, ifname, groups) + ChainClose
                + FwdHeader + ChainRules(Forward, topo, ifname, groups) + TableClose + "\n";
    assert Script(topo, ifname, groups) == TableOpen + InHeader + rest;
    AppendAssoc(TableOpen, InHeader, rest);
    AppendAssoc(ChainDecl(InChain), tail, rest);
    DeclaresAfter(TableOpen, InChain, tail + rest);
  }

  /** The script declares the forward chain that teardown deletes by name. */
  lemma ScriptDeclaresForwardChain(topo: Topology, ifname: int -> string, groups: Groups)
    ensures Declares(Script(topo, ifname, groups), FwdChain)
  {
    var before := TableOpen + InHeader + ChainRules(Input, topo, ifname, groups) + ChainClose;
    var tail := "\n type filter hook forward priority -200\n";
    var rest := ChainRules(Forward, topo, ifname, groups) + TableClose + "\n";
    assert Script(topo, ifname, groups) == before + FwdHeader + rest;
    AppendAssoc(before, FwdHeader, rest);
    AppendAssoc(ChainDecl(FwdChain), tail, rest);
    DeclaresAfter(before, FwdChain, tail + rest);
  }

  /** The release discipline of one run: the temporary file is created first and
      unlinked exactly once, as the last step; the stream (when `streamHeld`) or else
      the bare descriptor is closed exactly once; the netlink socket is freed
      exactly as often as it was allocated, once when `socketHeld`. */
  predicate ReleasesAll(t: seq<Effect>, fd: int, path: string, streamHeld: bool, socketHeld: bool)
  {
    && |t| > 0 && t[0] == CreateTemp(fd, path) && t[|t| - 1] == Unlink(path)
    && Count(t, Unlink(path)) == 1
    && Count(t, CloseStream(fd)) == (if streamHeld then 1 else 0)
    && Count(t, Close(fd)) == (if streamHeld then 0 else 1)
    && Count(t, AllocSocket) == Count(t, FreeSocket)
    && Count(t, AllocSocket) == (if socketHeld then 1 else 0)
  }

  lemma NoStreamReleases(fd: int, path: string)
    ensures ReleasesAll([CreateTemp(fd, path), Close(fd), Unlink(path)], fd, path, false, false)
  {
  }

  lemma NoSocketReleases(fd: int, path: string)
    ensures ReleasesAll([CreateTemp(fd, path), OpenStream(fd), CloseStream(fd), Unlink(path)], fd, path, true, false)
  {
  }

  lemma NotConnectedReleases(fd: int, path: string, connectErr: int)
    ensures ReleasesAll([CreateTemp(fd, path), OpenStream(fd), AllocSocket, Connect(connectErr),
                         FreeSocket, CloseStream(fd), Unlink(path)], fd, path, true, true)
  {
  }

  lemma ConnectedReleases(fd: int, path: string, script: string, nftStatus: int)
    ensures ReleasesAll([CreateTemp(fd, path), OpenStream(fd), AllocSocket, Connect(0),
                         Write(fd, script), Run(NftCommand(path), nftStatus),
                         FreeSocket, CloseStream(fd), Unlink(path)], fd, path, true, true)
  {
  }

  /** Once the temporary file exists, every exit path of `setup_nftables`
      releases what it acquired, and releases it once. */
  lemma SetupReleasesResources(mkstemp: Option<TempFile>, fdopenOk: bool, sockOk: bool, connectErr: int,
                               script: string, nftStatus: int)
    requires mkstemp.Some?
    ensures ReleasesAll(SetupEffects(mkstemp, fdopenOk, sockOk, connectErr, script, nftStatus),
                        mkstemp.value.fd, TempPath(mkstemp.value.suffix), fdopenOk, fdopenOk && sockOk)
  {
    var fd, path := mkstemp.value.fd, TempPath(mkstemp.value.suffix);
    match StageReached(mkstemp, fdopenOk, sockOk, connectErr)
    case NoStream => NoStreamReleases(fd, path);
    case NoSocket => NoSocketReleases(fd, path);
    case NotConnected => NotConnectedReleases(fd, path, connectErr);
    case Connected => ConnectedReleases(fd, path, script, nftStatus);
  }

  /** A failed `mkstemp` leaves nothing behind, not even an unlink. */
  lemma SetupWithoutTempFile(fdopenOk: bool, sockOk: bool, connectErr: int, script: string, nftStatus: int)
    ensures SetupEffects(None, fdopenOk, sockOk, connectErr, script, nftStatus) == []
  {
  }

  /** `nft -f FILE` runs exactly once when the connect succeeded and never otherwise;
      it runs after the script was written and before `fclose` flushes the stream. */
  lemma SetupRunsNftOnlyWhenConnected(mkstemp: Option<TempFile>, fdopenOk: bool, sockOk: bool, connectErr: int,
                                      script: string, nftStatus: int)
    ensures var t := SetupEffects(mkstemp, fdopenOk, sockOk, connectErr, script, nftStatus);
      && (forall k :: 0 <= k < |t| && t[k].Run? ==>
            StageReached(mkstemp, fdopenOk, sockOk, connectErr) == Connected)
      && (StageReached(mkstemp, fdopenOk, sockOk, connectErr) == Connected ==>
            var fd, path := mkstemp.value.fd, TempPath(mkstemp.value.suffix);
            && Count(t, Run(NftCommand(path), nftStatus)) == 1
            && t[4] == Write(fd, script) && t[5] == Run(NftCommand(path), nftStatus)
            && (forall k :: 0 <= k < |t| && t[k] == CloseStream(fd) ==> 5 < k))
  {
    var t := SetupEffects(mkstemp, fdopenOk, sockOk, connectErr, script, nftStatus);
    if StageReached(mkstemp, fdopenOk, sockOk, connectErr) == Connected {
      var fd, path := mkstemp.value.fd, TempPath(mkstemp.value.suffix);
      assert t == [CreateTemp(fd, path), OpenStream(fd), AllocSocket, Connect(0),
                   Write(fd, script), Run(NftCommand(path), nftStatus),
                   FreeSocket, CloseStream(fd), Unlink(path)];
    }
  }

  // ---------------------------------------------------------------------
  // Flushing the rule file before `nft` reads it

  /** By step `k` of `t`, the stream on `fd` was flushed (by `fflush` or
      `fclose`) and nothing was written to it since. */
  predicate FlushedBefore(t: seq<Effect>, fd: int, k: int)
    requires 0 <= k <= |t|
  {
    exists j :: 0 <= j < k && (t[j] == Flush(fd) || t[j] == CloseStream(fd))
                && forall i :: j < i < k ==> !t[i].Write?
  }

  /** Every `system()` in `t` runs on a rule file that holds all the text
      written to the stream on `fd`. */
  predicate NftSeesScript(t: seq<Effect>, fd: int)
  {
    forall k :: 0 <= k < |t| && t[k].Run? ==> FlushedBefore(t, fd, k)
  }

  /** As written: on the full path `nft -f FILE` runs while the script still
      sits in the stream's buffer, since nothing flushes it before `system()`. */
  lemma SetupRunsNftBeforeFlush(tmp: TempFile, script: string, nftStatus: int)
    ensures !NftSeesScript(SetupEffects(Some(tmp), true, true, 0, script, nftStatus), tmp.fd)
  {
    var fd, path := tmp.fd, TempPath(tmp.suffix);
    var t := SetupEffects(Some(tmp), true, true, 0, script, nftStatus);
    assert t == [CreateTemp(fd, path), OpenStream(fd), AllocSocket, Connect(0),
                 Write(fd, script), Run(NftCommand(path), nftStatus),
                 FreeSocket, CloseStream(fd), Unlink(path)];
    assert t[5].Run?;
    assert !FlushedBefore(t, fd, 5) by {
      forall j | 0 <= j < 5
        ensures t[j] != Flush(fd) && t[j] != CloseStream(fd)
      {
      }
    }
  }

  /** Reference table of the corrected `setup_nftables`: as `SetupEffects`,
      except that the stream is flushed between writing the script and running
      `nft` on the file. */
  function SetupEffectsFlushed(mkstemp: Option<TempFile>, fdopenOk: bool, sockOk: bool, connectErr: int,
                               script: string, nftStatus: int): seq<Effect>
  {
    match StageReached(mkstemp, fdopenOk, sockOk, connectErr)
    case Connected =>
      var fd, path := mkstemp.value.fd, TempPath(mkstemp.value.suffix);
      [CreateTemp(fd, path), OpenStream(fd), AllocSocket, Connect(0),
       Write(fd, script), Flush(fd), Run(NftCommand(path), nftStatus),
       FreeSocket, CloseStream(fd), Unlink(path)]
    case _ => SetupEffects(mkstemp, fdopenOk, sockOk, connectErr, script, nftStatus)
  }

  /**
   * `setup_nftables` corrected: identical to `SetupNftables` except for an
   * `fflush(fp)` after the script is written, so that `nft` reads it all.
   */
  method SetupNftablesFlushed(topo: Topology, ifname: int -> string, groups: Groups,
                              mkstemp: Option<TempFile>, fdopenOk: bool, sockOk: bool,
                              connectErr: int, nftStatus: int)
    returns (err: int, trace: seq<Effect>)
    ensures err == (if mkstemp.None? || !fdopenOk then 1
                    else if !sockOk then -NLE_NOMEM
                    else connectErr)
    ensures trace == SetupEffectsFlushed(mkstemp, fdopenOk, sockOk, connectErr, Script(topo, ifname, groups), nftStatus)
  {
    if mkstemp.None? {
      return 1, [];
    }
    var fd := mkstemp.value.fd;
    var path := TempPath(mkstemp.value.suffix);
    trace := [CreateTemp(fd, path)];
    err := 0;
    label errUnlink: {
      if !fdopenOk {
        trace := trace + [Close(fd)];
        err := 1;
        break errUnlink;
      }
      trace := trace + [OpenStream(fd)];
      label errCloseFp: {
        if !sockOk {
          err := -NLE_NOMEM;
          break errCloseFp;
        }
        trace := trace + [AllocSocket];
        label errFreeSk: {
          err := connectErr;
          trace := trace + [Connect(err)];
          if err != 0 {
            break errFreeSk;
          }
          var text := GenerateScript(topo, ifname, groups);
          trace := trace + [Write(fd, text)];
          trace := trace + [Flush(fd)];
          trace := trace + [Run(NftCommand(path), nftStatus)];
        }
        trace := trace + [FreeSocket];
      }
      trace := trace + [CloseStream(fd)];
    }
    trace := trace + [Unlink(path)];
  }

  /** Corrected: whenever `nft` runs, the file holds the whole script. */
  lemma SetupFlushedNftSeesScript(mkstemp: Option<TempFile>, fdopenOk: bool, sockOk: bool, connectErr: int,
                                  script: string, nftStatus: int)
    requires mkstemp.Some?
    ensures NftSeesScript(SetupEffectsFlushed(mkstemp, fdopenOk, sockOk, connectErr, script, nftStatus),
                          mkstemp.value.fd)
  {
    var fd := mkstemp.value.fd;
    var t := SetupEffectsFlushed(mkstemp, fdopenOk, sockOk, connectErr, script, nftStatus);
    if StageReached(mkstemp, fdopenOk, sockOk, connectErr) == Connected {
      var path := TempPath(mkstemp.value.suffix);
      assert t == [CreateTemp(fd, path), OpenStream(fd), AllocSocket, Connect(0),
                   Write(fd, script), Flush(fd), Run(NftCommand(path), nftStatus),
                   FreeSocket, CloseStream(fd), Unlink(path)];
      forall k | 0 <= k < |t| && t[k].Run?
        ensures FlushedBefore(t, fd, k)
      {
        assert k == 6;
        assert t[5] == Flush(fd);
      }
    } else {
      forall k | 0 <= k < |t|
        ensures !t[k].Run?
      {
      }
    }
  }

  /** Corrected: the flush leaves the release discipline as it was. */
  lemma SetupFlushedReleasesResources(mkstemp: Option<TempFile>, fdopenOk: bool, sockOk: bool, connectErr: int,
                                      script: string, nftStatus: int)
    requires mkstemp.Some?
    ensures ReleasesAll(SetupEffectsFlushed(mkstemp, fdopenOk, sockOk, connectErr, script, nftStatus),
                        mkstemp.value.fd, TempPath(mkstemp.value.suffix), fdopenOk, fdopenOk && sockOk)
  {
    if StageReached(mkstemp, fdopenOk, sockOk, connectErr) == Connected {
      var fd, path := mkstemp.value.fd, TempPath(mkstemp.value.suffix);
      assert ReleasesAll([CreateTemp(fd, path), OpenStream(fd), AllocSocket, Connect(0),
                          Write(fd, script), Flush(fd), Run(NftCommand(path), nftStatus),
                          FreeSocket, CloseStream(fd), Unlink(path)], fd, path, true, true);
    } else {
      SetupReleasesResources(mkstemp, fdopenOk, sockOk, connectErr, script, nftStatus);
    }
  }
}
