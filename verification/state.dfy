/** Configuration ingestion and the table of target statuses (src/state.rs). */
module Configuration {
  import opened Types

  datatype ProxyConfig = ProxyConfig(targetPools: seq<seq<string>>, portToPool: map<Port, nat>) {

    /** The backends of a port. */
    function GetPool(port: Port): Option<seq<string>> {
      if port !in portToPool then None
      else if portToPool[port] < |targetPools| then Some(targetPools[portToPool[port]])
      else None
    }

    /** The configured ports, in the order a B-tree yields its keys. */
    function Ports(): (ports: seq<Port>)
      ensures forall p :: p in ports <==> p in portToPool
      ensures forall i, j :: 0 <= i < j < |ports| ==> ports[i] < ports[j]
    {
      PortsFrom(0)
    }

    function PortsFrom(low: int): (ports: seq<Port>)
      requires 0 <= low <= 0x1_0000
      ensures forall p :: p in ports <==> p in portToPool && low <= p as int
      ensures forall i, j :: 0 <= i < j < |ports| ==> ports[i] < ports[j]
      decreases 0x1_0000 - low
    {
      if low == 0x1_0000 then []
      else
        var above := PortsFrom(low + 1);
        assert forall k :: 0 <= k < |above| ==> above[k] in above;
        if low as Port in portToPool then [low as Port] + above else above
    }
  }

  /** All ports in the order ingestion scans them: app by app, then within the app. */
  ghost function ScanPorts(apps: seq<App>): seq<Port> {
    if apps == [] then [] else ScanPorts(apps[..|apps| - 1]) + apps[|apps| - 1].ports
  }

  /** Position k of the scan is the first one that repeats an earlier port. */
  ghost predicate FirstRepeat(scan: seq<Port>, k: nat) {
    k < |scan| && Distinct(scan[..k]) && scan[k] in scan[..k]
  }

  /** Each port is served by the targets of the one app that lists it, and no other port is served. */
  ghost predicate ServesExactly(apps: seq<App>, config: ProxyConfig) {
    && (forall p, a: nat :: Lists(apps, a, p) ==> config.GetPool(p) == Some(apps[a].targets))
    && (forall p :: config.GetPool(p).Some? ==> p in config.portToPool && Lists(apps, config.portToPool[p], p))
    && (forall p, a: nat, b: nat :: Lists(apps, a, p) && Lists(apps, b, p) ==> a == b)
    && (forall p :: p in config.portToPool ==> config.portToPool[p] < |config.targetPools|)
  }

  ghost predicate Lists(apps: seq<App>, a: nat, p: Port) {
    a < |apps| && p in apps[a].ports
  }

  lemma {:induction false} ScanOfPrefix(apps: seq<App>, i: nat)
    requires i < |apps|
    ensures ScanPorts(apps[..i]) + apps[i].ports <= ScanPorts(apps)
  {
    var last := |apps| - 1;
    if i < last {
      ScanOfPrefix(apps[..last], i);
      assert apps[..last][..i] == apps[..i];
    }
  }

  /** The index after apps[..i] and the first j ports of apps[i]. */
  ghost predicate IndexedUpTo(apps: seq<App>, i: nat, j: nat, m: map<Port, nat>)
    requires i < |apps| && j <= |apps[i].ports|
  {
    && (forall p, a: nat :: Lists(apps, a, p) && a < i ==> p in m && m[p] == a)
    && (forall p :: p in apps[i].ports[..j] ==> p in m && m[p] == i)
    && (forall p :: p in m ==> if m[p] == i then p in apps[i].ports[..j] else m[p] < i && Lists(apps, m[p], p))
  }

  /** The index after apps[..i]. */
  ghost predicate Indexed(apps: seq<App>, i: nat, m: map<Port, nat>) {
    && (forall p, a: nat :: Lists(apps, a, p) && a < i ==> p in m && m[p] == a)
    && (forall p :: p in m ==> m[p] < i && Lists(apps, m[p], p))
  }

  ghost predicate SamePorts(scan: seq<Port>, m: map<Port, nat>) {
    forall p :: p in scan <==> p in m
  }

  /** The inner ingestion loop: index the ports of one app, stopping at the first repeat. */
  method IndexApp(ghost apps: seq<App>, app: App, i: nat, start: map<Port, nat>)
    returns (portToPool: map<Port, nat>, repeated: Option<Port>, ghost at: nat)
    requires i < |apps| && app == apps[i]
    requires Indexed(apps, i, start)
    requires SamePorts(ScanPorts(apps[..i]), start) && Distinct(ScanPorts(apps[..i]))
    ensures repeated.None? ==> Indexed(apps, i + 1, portToPool)
    ensures repeated.None? ==> SamePorts(ScanPorts(apps[..i]) + app.ports, portToPool)
    ensures repeated.None? ==> Distinct(ScanPorts(apps[..i]) + app.ports)
    ensures repeated.Some? ==> FirstRepeat(ScanPorts(apps[..i]) + app.ports, at)
                               && repeated.value == (ScanPorts(apps[..i]) + app.ports)[at]
  {
    portToPool := start;
    ghost var before := ScanPorts(apps[..i]);
    for j := 0 to |app.ports|
      invariant IndexedUpTo(apps, i, j, portToPool)
      invariant Distinct(before + app.ports[..j])
      invariant SamePorts(before + app.ports[..j], portToPool)
    {
      var port := app.ports[j];
      ghost var seen := before + app.ports[..j];
      assert seen + [port] == before + app.ports[..j + 1];
      if port in portToPool {
        assert (before + app.ports)[..|seen|] == seen;
        return portToPool, Some(port), |seen|;
      }
      assert port !in seen;
      portToPool := portToPool[port := i];
    }
    assert app.ports[..|app.ports|] == app.ports;
    return portToPool, None, 0;
  }

  method IngestConfig(raw: RawConfig) returns (r: Result<ProxyConfig>)
    ensures r.Ok? <==> Distinct(ScanPorts(raw.apps))
    ensures r.Ok? ==> ServesExactly(raw.apps, r.value) && SamePorts(ScanPorts(raw.apps), r.value.portToPool)
    ensures r.Err? ==> exists k: nat :: FirstRepeat(ScanPorts(raw.apps), k)
                                        && r.error == ConfigIngestError(ScanPorts(raw.apps)[k])
  {
    var apps := raw.apps;
    var targetPools: seq<seq<string>> := [];
    var portToPool: map<Port, nat> := map[];
    for i := 0 to |apps|
      invariant |targetPools| == i
      invariant forall a :: 0 <= a < i ==> targetPools[a] == apps[a].targets
      invariant Indexed(apps, i, portToPool)
      invariant Distinct(ScanPorts(apps[..i]))
      invariant SamePorts(ScanPorts(apps[..i]), portToPool)
    {
      targetPools := targetPools + [apps[i].targets];
      var extended, repeated, at := IndexApp(apps, apps[i], |targetPools| - 1, portToPool);
      assert apps[..i + 1][..i] == apps[..i];
      if repeated.Some? {
        ScanOfPrefix(apps, i);
        FirstRepeatOfPrefix(ScanPorts(apps[..i + 1]), ScanPorts(apps), at);
        return Err(ConfigIngestError(repeated.value));
      }
      portToPool := extended;
    }
    assert apps[..|apps|] == apps;
    r := Ok(ProxyConfig(targetPools, portToPool));
  }

  lemma FirstRepeatOfPrefix(prefix: seq<Port>, scan: seq<Port>, k: nat)
    requires prefix <= scan && FirstRepeat(prefix, k)
    ensures FirstRepeat(scan, k) && scan[k] == prefix[k] && !Distinct(scan)
  {
    assert scan[..k] == prefix[..k];
    var j :| 0 <= j < k && scan[..k][j] == scan[k];
  }

  /** Every target named anywhere in the configuration. */
  ghost function AllTargets(apps: seq<App>): set<string> {
    set a, t | 0 <= a < |apps| && t in apps[a].targets :: t
  }

  /** One swappable status cell per target. */
  class TargetState {
    var targetStatus: map<string, BackendStatus>

    constructor Ingest(raw: RawConfig)
      ensures targetStatus.Keys == AllTargets(raw.apps)
      ensures forall t :: t in targetStatus ==> targetStatus[t] == Alive(None)
    {
      targetStatus := map[];
      new;
      for i := 0 to |raw.apps|
        invariant targetStatus.Keys == AllTargets(raw.apps[..i])
        invariant forall t :: t in targetStatus ==> targetStatus[t] == Alive(None)
      {
        var targets := raw.apps[i].targets;
        for j := 0 to |targets|
          invariant targetStatus.Keys == AllTargets(raw.apps[..i]) + set t | t in targets[..j]
          invariant forall t :: t in targetStatus ==> targetStatus[t] == Alive(None)
        {
          targetStatus := targetStatus[targets[j] := Alive(None)];
        }
        assert targets[..|targets|] == targets;
        assert AllTargets(raw.apps[..i + 1]) == AllTargets(raw.apps[..i]) + set t | t in targets;
      }
      assert raw.apps[..|raw.apps|] == raw.apps;
    }

    function GetTargetStatus(target: string): Result<BackendStatus>
      reads this
    {
      if target in targetStatus then Ok(targetStatus[target]) else Err(BackendNotFound(target))
    }

    method UpdateTargetStatus(target: string, status: BackendStatus) returns (r: Result<Unit>)
      modifies this
      ensures targetStatus.Keys == old(targetStatus.Keys)
      ensures target in targetStatus ==> r.Ok? && targetStatus == old(targetStatus)[target := status]
      ensures target !in targetStatus ==> r == Err(BackendNotFound(target)) && targetStatus == old(targetStatus)
    {
      if target !in targetStatus {
        return Err(BackendNotFound(target));
      }
      targetStatus := targetStatus[target := status];
      r := Ok(Unit.Unit);
    }
  }
}
