/**
  The port/process registry of remote mode (src/services/serveManager.ts): one
  worker process per project path, each on its own port from a fixed range.
  Spawning, killing, the bind probe and the HTTP liveness probe are outside
  the model; their results are parameters, and a process is represented by an
  opaque handle number.
 */
module ServeManager {
  import opened Wrappers
  import opened Strings

  const PortMin: int := 14097
  const PortMax: int := 14200

  const NoPortMessage := "No available ports in range 14097-14200"

  datatype Instance = Instance(port: int, process: nat, startTime: int)

  /** Project path -> its tracked worker. */
  type Registry = map<string, Instance>

  function UsedPorts(reg: Registry): set<int> {
    set path | path in reg :: reg[path].port
  }

  /** The registry invariant: ports lie in the range and no two projects share one. */
  predicate Valid(reg: Registry) {
    && (forall path :: path in reg ==> PortMin <= reg[path].port <= PortMax)
    && (forall a, b :: a in reg && b in reg && a != b ==> reg[a].port != reg[b].port)
  }

  /**
    The port search from `from` upwards: the lowest port no tracked instance
    holds and the bind probe reports free (`free`), or the no-port error once
    the range is exhausted.
   */
  function FindPortFrom(reg: Registry, free: set<int>, from: int): (r: Result<int, string>)
    requires PortMin <= from <= PortMax + 1
    ensures r.Success? ==> from <= r.value <= PortMax && r.value !in UsedPorts(reg) && r.value in free
    ensures r.Success? ==> forall p :: from <= p < r.value ==> p in UsedPorts(reg) || p !in free
    ensures r.Failure? ==> r.error == NoPortMessage
    ensures r.Failure? ==> forall p :: from <= p <= PortMax ==> p in UsedPorts(reg) || p !in free
    decreases PortMax + 1 - from
  {
    if from > PortMax then Failure(NoPortMessage)
    else if from !in UsedPorts(reg) && from in free then Success(from)
    else FindPortFrom(reg, free, from + 1)
  }

  /** `findAvailablePort`: the lowest usable port of the whole range. */
  function FindAvailablePort(reg: Registry, free: set<int>): (r: Result<int, string>)
    ensures r.Success? ==> PortMin <= r.value <= PortMax && r.value !in UsedPorts(reg) && r.value in free
    ensures r.Success? ==> forall p :: PortMin <= p < r.value ==> p in UsedPorts(reg) || p !in free
    ensures r.Failure? <==> forall p :: PortMin <= p <= PortMax ==> p in UsedPorts(reg) || p !in free
    ensures r.Failure? ==> r.error == NoPortMessage
  {
    FindPortFrom(reg, free, PortMin)
  }

  /** The registry after `spawnServe`, the port it resolves with (or its error) and whether it spawned a process. */
  datatype Spawn = Spawn(registry: Registry, port: Result<int, string>, spawned: bool)

  /**
    `spawnServe`: a tracked project gets its existing port and nothing is
    spawned. Otherwise the lowest usable port is chosen, the process started
    and the instance registered before the port is returned; without a port
    the call fails and nothing changes.
   */
  function SpawnServe(reg: Registry, projectPath: string, free: set<int>, process: nat, now: int): (r: Spawn)
    ensures projectPath in reg ==> r == Spawn(reg, Success(reg[projectPath].port), false)
    ensures projectPath !in reg && r.port.Success? ==>
              && r.spawned
              && r.registry == reg[projectPath := Instance(r.port.value, process, now)]
              && PortMin <= r.port.value <= PortMax
              && (forall other :: other in reg ==> reg[other].port != r.port.value)
              && r.port == FindAvailablePort(reg, free)
    ensures r.port.Failure? ==> r.registry == reg && !r.spawned && r.port == FindAvailablePort(reg, free)
  {
    if projectPath in reg then Spawn(reg, Success(reg[projectPath].port), false)
    else
      match FindAvailablePort(reg, free)
      case Failure(e) => Spawn(reg, Failure(e), false)
      case Success(port) => Spawn(reg[projectPath := Instance(port, process, now)], Success(port), true)
  }

  /** `getPort`. */
  function GetPort(reg: Registry, projectPath: string): (r: Option<int>)
    ensures r.Some? <==> projectPath in reg
    ensures r.Some? ==> r.value == reg[projectPath].port
  {
    if projectPath in reg then Some(reg[projectPath].port) else None
  }

  /** A second spawn for the same path returns the first one's port and spawns nothing. */
  lemma SpawnIdempotent(reg: Registry, projectPath: string, free1: set<int>, free2: set<int>,
                        p1: nat, p2: nat, now1: int, now2: int)
    requires SpawnServe(reg, projectPath, free1, p1, now1).port.Success?
    ensures var first := SpawnServe(reg, projectPath, free1, p1, now1);
            var second := SpawnServe(first.registry, projectPath, free2, p2, now2);
            && second == Spawn(first.registry, first.port, false)
            && GetPort(first.registry, projectPath) == Some(first.port.value)
  {
  }

  datatype Stop = Stop(registry: Registry, stopped: bool, killed: Option<nat>)

  /** `stopServe`: unknown paths report false and change nothing; otherwise kill and remove that entry only. */
  function StopServe(reg: Registry, projectPath: string): (r: Stop)
    ensures projectPath !in reg ==> r == Stop(reg, false, None)
    ensures projectPath in reg ==>
              r.stopped && r.killed == Some(reg[projectPath].process) && r.registry == reg - {projectPath}
  {
    if projectPath !in reg then Stop(reg, false, None)
    else Stop(reg - {projectPath}, true, Some(reg[projectPath].process))
  }

  datatype StopAllResult = StopAllResult(registry: Registry, killed: set<nat>)

  /** `stopAll`: every tracked process is killed and the registry left empty. */
  function StopAll(reg: Registry): (r: StopAllResult)
    ensures r.registry == map[]
    ensures forall path :: path in reg ==> reg[path].process in r.killed
    ensures forall h :: h in r.killed ==> exists path :: path in reg && reg[path].process == h
  {
    StopAllResult(map[], set path | path in reg :: reg[path].process)
  }

  /** On an empty registry `stopAll` kills nothing. */
  lemma StopAllEmpty()
    ensures StopAll(map[]) == StopAllResult(map[], {})
  {
  }

  /**
    The `exit` handler: if the path is still tracked, the liveness probe of its
    port decides; a responding server keeps its entry.
   */
  function OnExit(reg: Registry, projectPath: string, stillResponding: bool): (r: Registry)
    ensures projectPath in reg && !stillResponding ==> r == reg - {projectPath}
    ensures projectPath !in reg || stillResponding ==> r == reg
  {
    if projectPath in reg && !stillResponding then reg - {projectPath} else reg
  }

  /** After an exit, `getPort` answers exactly by the probe. */
  lemma ExitProbeDecides(reg: Registry, projectPath: string, stillResponding: bool)
    ensures GetPort(OnExit(reg, projectPath, stillResponding), projectPath).Some?
            <==> projectPath in reg && stillResponding
  {
  }

  /** The `error` handler: the path is removed unconditionally. */
  function OnProcessError(reg: Registry, projectPath: string): (r: Registry)
    ensures GetPort(r, projectPath).None?
    ensures forall other :: other != projectPath ==> GetPort(r, other) == GetPort(reg, other)
  {
    reg - {projectPath}
  }

  /** Every registry operation keeps ports in range and distinct. */
  lemma ValidPreserved(reg: Registry, projectPath: string, free: set<int>, process: nat, now: int, alive: bool)
    requires Valid(reg)
    ensures Valid(SpawnServe(reg, projectPath, free, process, now).registry)
    ensures Valid(StopServe(reg, projectPath).registry)
    ensures Valid(StopAll(reg).registry)
    ensures Valid(OnExit(reg, projectPath, alive))
    ensures Valid(OnProcessError(reg, projectPath))
  {
    var r := SpawnServe(reg, projectPath, free, process, now);
    if projectPath !in reg && r.port.Success? {
      forall a, b | a in r.registry && b in r.registry && a != b
        ensures r.registry[a].port != r.registry[b].port
      {
        if a != projectPath && b != projectPath {
          assert r.registry[a] == reg[a] && r.registry[b] == reg[b];
        }
      }
    }
  }

  datatype InstanceInfo = InstanceInfo(projectPath: string, port: int)

  /** `getAllInstances`: one entry per tracked project with its port (the listing order is not modelled). */
  function GetAllInstances(reg: Registry): (r: set<InstanceInfo>)
    ensures forall info :: info in r <==> info.projectPath in reg && reg[info.projectPath].port == info.port
  {
    set path | path in reg :: InstanceInfo(path, reg[path].port)
  }

  /**
    The listing agrees with `getPort`: a project is listed with a port exactly
    when `getPort` reports that port, so each project is listed once. Over a
    valid registry, two different entries never share a port, and every
    listed port lies in the range.
   */
  lemma ListingMeaning(reg: Registry)
    ensures forall p, n :: InstanceInfo(p, n) in GetAllInstances(reg) <==> GetPort(reg, p) == Some(n)
    ensures forall a, b :: a in GetAllInstances(reg) && b in GetAllInstances(reg) && a.projectPath == b.projectPath ==>
              a == b
    ensures Valid(reg) ==>
              forall a, b :: a in GetAllInstances(reg) && b in GetAllInstances(reg) && a != b ==> a.port != b.port
    ensures Valid(reg) ==> forall a :: a in GetAllInstances(reg) ==> PortMin <= a.port <= PortMax
  {
  }

  const PollIntervalMs := 500
  const DefaultReadyTimeoutMs := 10000

  function TimeoutMessage(port: int, timeout: int): string {
    "Service at port " + IntToDecimal(port) + " failed to become ready within " + IntToDecimal(timeout) + "ms"
  }

  /**
    `waitForReady` against an abstract clock: `clock[i]` is the elapsed time
    seen by the i-th loop test and `polls[i]` whether the i-th fetch answered ok
    (a rejected fetch counts as not ok). The clock reaches the timeout by the
    last test. The result is the number of polls made, which succeed at the
    first ok poll made before the deadline; otherwise the timeout error.
   */
  method WaitForReady(port: int, timeout: int, clock: seq<int>, polls: seq<bool>) returns (r: Result<nat, string>)
    requires |clock| == |polls| + 1
    requires clock[|polls|] >= timeout
    ensures r.Success? ==>
              && 1 <= r.value <= |polls| && polls[r.value - 1]
              && (forall j :: 0 <= j < r.value ==> clock[j] < timeout)
              && (forall j :: 0 <= j < r.value - 1 ==> !polls[j])
    ensures r.Failure? ==>
              && r.error == TimeoutMessage(port, timeout)
              && exists stop :: 0 <= stop <= |polls| && clock[stop] >= timeout
                                && forall j :: 0 <= j < stop ==> clock[j] < timeout && !polls[j]
  {
    var i := 0;
    while clock[i] < timeout
      invariant 0 <= i <= |polls|
      invariant forall j :: 0 <= j < i ==> clock[j] < timeout && !polls[j]
      decreases |polls| - i
    {
      if polls[i] {
        return Success(i + 1);
      }
      i := i + 1;
    }
    return Failure(TimeoutMessage(port, timeout));
  }
}
