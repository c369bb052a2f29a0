/**
 * The host registry: which managed servers a node owns, looked up by the node's short
 * host name, and the fixed per-host server lists of the per-host scripts.
 */
module HostRegistry {
  import opened Wlst

  /** The host name without its domain suffix: the text before the first '.'. */
  function ShortHostName(name: string): (short: string)
    ensures '.' !in short
    ensures |short| <= |name| && short == name[..|short|]
    ensures |short| < |name| ==> name[|short|] == '.'
  {
    if name == [] || name[0] == '.' then [] else [name[0]] + ShortHostName(name[1..])
  }

  /** A name that already has no domain suffix is kept as it is. */
  lemma ShortHostNameKeepsPlainName(name: string)
    requires '.' !in name
    ensures ShortHostName(name) == name
  {
  }

  /** A fully qualified name resolves to its first label. */
  lemma {:induction false} ShortHostNameOfQualified(host: string, domain: string)
    requires '.' !in host
    ensures ShortHostName(host + "." + domain) == host
  {
    var name := host + "." + domain;
    assert name[..|host|] == host && name[|host|] == '.';
  }

  const Prmapp01Servers: seq<string> := ["p6web_ms1", "p6ws_ms1", "p6tm_ms1", "p6cc_ms1"]
  const Prmapp02Servers: seq<string> := ["p6web_ms2", "p6ws_ms2", "p6tm_ms2", "p6cc_ms2"]

  /** The shutdown order of the prmapp02 stop script: front tier first. */
  const Prmapp02StopOrder: seq<string> := ["p6cc_ms2", "p6tm_ms2", "p6ws_ms2", "p6web_ms2"]

  const ServerMap: map<string, seq<string>> := map["prmapp01" := Prmapp01Servers, "prmapp02" := Prmapp02Servers]

  /** The servers the node with this (possibly qualified) host name manages, or None for an unknown node. */
  function Resolve(hostname: string): Option<seq<string>>
  {
    var short := ShortHostName(hostname);
    if short in ServerMap then Some(ServerMap[short]) else None
  }

  /** Exactly the two application hosts are known, each with its own four servers. */
  lemma ResolveKnownHosts(hostname: string)
    ensures Resolve(hostname).Some? <==> ShortHostName(hostname) == "prmapp01" || ShortHostName(hostname) == "prmapp02"
    ensures ShortHostName(hostname) == "prmapp01" ==> Resolve(hostname) == Some(Prmapp01Servers)
    ensures ShortHostName(hostname) == "prmapp02" ==> Resolve(hostname) == Some(Prmapp02Servers)
  {
  }

  function Reverse<T>(s: seq<T>): (r: seq<T>)
    ensures |r| == |s|
    ensures forall i :: 0 <= i < |s| ==> r[i] == s[|s| - 1 - i]
  {
    if s == [] then [] else Reverse(s[1..]) + [s[0]]
  }

  /** prmapp02 is shut down in exactly the reverse of the order it is started in. */
  lemma Prmapp02StopReversesStart()
    ensures Prmapp02StopOrder == Reverse(Prmapp02Servers)
  {
  }
}
