/**
 * The per-directory configuration of the gearman module: the record Apache
 * creates for a configuration section that holds one of the module's
 * directives, the merge it applies when such a section is nested inside
 * another, and what repeated merging along a chain of such sections yields.
 * A section without any of the module's directives gets no record of its
 * own and takes the enclosing record whole.
 */
module GearmanConfig {
  import opened Wrappers

  /**
   * The host a fresh section is given, and the host the client library uses
   * when it is handed a NULL host.
   */
  const DefaultHost: string := "localhost"
  /**
   * The gearmand port a fresh section is given, and the port the client
   * library uses when it is handed port 0.
   */
  const DefaultPort: int := 4730

  /**
   * One section's settings. `host` is None where the C pointer is NULL;
   * `port` 0 means "not set", which is how the merge reads it.
   */
  datatype DirConfig = DirConfig(enabled: bool, host: Option<string>, port: int)

  /**
   * The record a section holding one of the module's directives (Gearman,
   * GearmanHost, GearmanPort) starts from before those directives are applied.
   */
  function CreateDirConfig(): (c: DirConfig)
    ensures !c.enabled
    ensures c.host == Some(DefaultHost)
    ensures c.port == DefaultPort
  {
    DirConfig(false, Some("localhost"), 4730)
  }

  /**
   * The configuration of a section `add` nested inside `base`: a host or a
   * port the inner section leaves unset falls back to the outer one, while
   * the inner section's `enabled` always wins.
   */
  function MergeDirConfigs(base: DirConfig, add: DirConfig): (r: DirConfig)
    ensures r.host == (if add.host.Some? then add.host else base.host)
    ensures r.port == (if add.port != 0 then add.port else base.port)
    ensures r.enabled == add.enabled
  {
    var host := if add.host != None then add.host else base.host;
    var port := if add.port != 0 then add.port else base.port;
    DirConfig(add.enabled, host, port)
  }

  /** Whatever the outer section says, the merged `enabled` is the inner one's. */
  lemma MergeNeverInheritsEnabled(base1: DirConfig, base2: DirConfig, add: DirConfig)
    ensures MergeDirConfigs(base1, add).enabled == MergeDirConfigs(base2, add).enabled == add.enabled
  {
  }

  /** Merging a configuration with itself changes nothing. */
  lemma MergeSelf(c: DirConfig)
    ensures MergeDirConfigs(c, c) == c
  {
  }

  /** A section that sets both host and port keeps its own values. */
  lemma MergeFullySetChild(base: DirConfig, add: DirConfig)
    requires add.host.Some? && add.port != 0
    ensures MergeDirConfigs(base, add) == add
  {
  }

  /** Merging is associative, so nested sections may be merged in any grouping. */
  lemma MergeAssociative(a: DirConfig, b: DirConfig, c: DirConfig)
    ensures MergeDirConfigs(MergeDirConfigs(a, b), c) == MergeDirConfigs(a, MergeDirConfigs(b, c))
  {
  }

  /**
   * The configuration of the innermost of `sections`, nested (outermost first)
   * inside the server's own configuration `server`. `sections` lists only the
   * enclosing sections that hold one of the module's directives; the others
   * have no record and pass the enclosing one through unchanged. The merge is
   * applied once per listed section, outermost first.
   */
  function MergeChain(server: DirConfig, sections: seq<DirConfig>): (r: DirConfig)
    ensures |sections| == 0 ==> r == server
    ensures |sections| > 0 ==> r.enabled == sections[|sections| - 1].enabled
    decreases |sections|
  {
    if |sections| == 0 then server
    else MergeDirConfigs(MergeChain(server, sections[..|sections| - 1]), sections[|sections| - 1])
  }

  /** Section `i` is the innermost section of the chain that sets a host. */
  ghost predicate SetsHostLast(sections: seq<DirConfig>, i: int) {
    0 <= i < |sections| && sections[i].host.Some?
    && forall j :: i < j < |sections| ==> sections[j].host.None?
  }

  /** Section `i` is the innermost section of the chain that sets a port. */
  ghost predicate SetsPortLast(sections: seq<DirConfig>, i: int) {
    0 <= i < |sections| && sections[i].port != 0
    && forall j :: i < j < |sections| ==> sections[j].port == 0
  }

  /**
   * Along a chain of nested sections the innermost section that sets a host
   * (a port) decides it, the server's value applies when none does, and
   * `enabled` is the innermost section's, whatever the outer ones say.
   */
  lemma {:induction false} MergeChainInnermost(server: DirConfig, sections: seq<DirConfig>)
    ensures forall i :: SetsHostLast(sections, i) ==> MergeChain(server, sections).host == sections[i].host
    ensures (forall i :: 0 <= i < |sections| ==> sections[i].host.None?) ==>
              MergeChain(server, sections).host == server.host
    ensures forall i :: SetsPortLast(sections, i) ==> MergeChain(server, sections).port == sections[i].port
    ensures (forall i :: 0 <= i < |sections| ==> sections[i].port == 0) ==>
              MergeChain(server, sections).port == server.port
    ensures |sections| > 0 ==> MergeChain(server, sections).enabled == sections[|sections| - 1].enabled
    decreases |sections|
  {
    if |sections| > 0 {
      var n := |sections|;
      var outer := sections[..n - 1];
      MergeChainInnermost(server, outer);
      assert MergeChain(server, sections) == MergeDirConfigs(MergeChain(server, outer), sections[n - 1]);
      forall i | SetsHostLast(sections, i) && i < n - 1
        ensures SetsHostLast(outer, i)
      {
      }
      forall i | SetsPortLast(sections, i) && i < n - 1
        ensures SetsPortLast(outer, i)
      {
      }
    }
  }

  // The configuration a section would start from if unset host and port were
  // left to inherit. The connection then relies on the client library's own
  // defaults for a NULL host and a zero port, which are localhost and 4730.

  /** A fresh section that sets nothing: disabled, host NULL, port 0. */
  function CreateUnsetDirConfig(): (c: DirConfig)
    ensures !c.enabled && c.host.None? && c.port == 0
  {
    DirConfig(false, None, 0)
  }

  /** The host a connection uses: the configured one, else the library's default. */
  function EffectiveHost(c: DirConfig): (h: string)
    ensures c.host.None? ==> h == DefaultHost
    ensures c.host.Some? ==> h == c.host.value
  {
    c.host.GetOr(DefaultHost)
  }

  /** Number of values of the client library's 16-bit port type. */
  const PortModulus: int := 65536

  /**
   * The port a connection uses. The configured `int` is narrowed to the
   * library's unsigned 16-bit port type (reduction modulo 2^16), and a port
   * that is 0 after narrowing gets the library's default.
   */
  function EffectivePort(c: DirConfig): (p: int)
    ensures 0 < p < PortModulus
    ensures c.port % PortModulus != 0 ==> (p - c.port) % PortModulus == 0
    ensures c.port % PortModulus == 0 ==> p == DefaultPort
    ensures 0 < c.port < PortModulus ==> p == c.port
  {
    var wire := c.port % PortModulus;
    if wire == 0 then DefaultPort else wire
  }

  /** A port beyond 16 bits wraps: 70000 connects to 4464, 65536 to the default. */
  lemma EffectivePortWraps()
    ensures EffectivePort(DirConfig(true, None, 70000)) == 4464
    ensures EffectivePort(DirConfig(true, None, 65536)) == DefaultPort
  {
  }

  /**
   * As written, a section created by CreateDirConfig always carries a host
   * and a non-zero port, so the merge never falls back to the outer section:
   * an inner section that holds, say, `Gearman On` but no GearmanHost or
   * GearmanPort connects to localhost:4730 whatever the outer section
   * configured.
   */
  lemma CreatedSectionHidesOuterServer(base: DirConfig, e: bool)
    ensures MergeDirConfigs(base, CreateDirConfig().(enabled := e)).host == Some(DefaultHost)
    ensures MergeDirConfigs(base, CreateDirConfig().(enabled := e)).port == DefaultPort
  {
  }

  /**
   * A concrete outer section whose server an inner section holding only
   * `Gearman On` loses.
   */
  lemma CreatedSectionLosesConfiguredHost()
    ensures var outer := DirConfig(true, Some("queue.internal"), 4731);
            var merged := MergeDirConfigs(outer, CreateDirConfig().(enabled := true));
            EffectiveHost(merged) != EffectiveHost(outer) && EffectivePort(merged) != EffectivePort(outer)
  {
  }

  /**
   * Starting sections from CreateUnsetDirConfig, an inner section that sets
   * neither host nor port, whether it turns the module on or off, connects
   * where the outer one does, and a lone fresh section still connects to
   * localhost:4730.
   */
  lemma UnsetSectionInheritsServer(base: DirConfig, e: bool)
    ensures EffectiveHost(MergeDirConfigs(base, CreateUnsetDirConfig().(enabled := e))) == EffectiveHost(base)
    ensures EffectivePort(MergeDirConfigs(base, CreateUnsetDirConfig().(enabled := e))) == EffectivePort(base)
    ensures EffectiveHost(CreateUnsetDirConfig()) == DefaultHost
    ensures EffectivePort(CreateUnsetDirConfig()) == DefaultPort
  {
  }

  /**
   * Along a chain of sections that all start from CreateUnsetDirConfig and
   * set neither host nor port (each may turn the module on or off), the
   * connection is the server's.
   */
  lemma UnsetChainInheritsServer(server: DirConfig, sections: seq<DirConfig>)
    requires forall i :: 0 <= i < |sections| ==> sections[i].host.None? && sections[i].port == 0
    ensures EffectiveHost(MergeChain(server, sections)) == EffectiveHost(server)
    ensures EffectivePort(MergeChain(server, sections)) == EffectivePort(server)
  {
    MergeChainInnermost(server, sections);
  }
}
