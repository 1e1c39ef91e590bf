/** The per-process runner registry of `picotest/src/runner/mod.rs`: the
    `IS_SERVER_SIDE` memo and the `RUNNERS_MAP` cache that hands each package
    the one client runner created for it.

    The executable's path, which `detect_run_as_server` reads, is a parameter
    given as its components. Runner identity (`Arc` sharing) is modelled by a
    serial number given to each runner when it is created. */
module Runner {
  import opened Wrappers
  import Client

  /** `detect_run_as_server`: the executable's last path component is
      `picodata` (`Path::ends_with` compares whole components). */
  predicate DetectRunAsServer(exePath: seq<string>) {
    |exePath| > 0 && exePath[|exePath| - 1] == "picodata"
  }

  /** `running_as_server` on the memo: the detection runs only when the memo is
      empty; the answer and the new memo. */
  function RunningAsServer(memo: Option<bool>, exePath: seq<string>): (r: (bool, Option<bool>))
    ensures r.1 == Some(r.0)
  {
    match memo
    case Some(b) => (b, memo)
    case None => (DetectRunAsServer(exePath), Some(DetectRunAsServer(exePath)))
  }

  /** Detection runs at most once: a later call returns the first answer, whatever
      the executable's path looks like by then. */
  lemma RunningAsServerMemoised(memo: Option<bool>, first: seq<string>, later: seq<string>)
    ensures var (b, m) := RunningAsServer(memo, first);
      RunningAsServer(m, later) == (b, m)
    ensures memo.None? ==> RunningAsServer(memo, first).0 == DetectRunAsServer(first)
  {
  }

  /** A runner as the cache shares it: the serial number stands for the `Arc`. */
  datatype Handle = Handle(id: nat, runner: Client.RemoteRunner)

  /** The cache's invariant: every runner was created before (its serial is
      below the count) and no runner is shared by two packages. */
  predicate CacheValid(runners: map<string, Handle>, created: nat) {
    (forall p :: p in runners ==> runners[p].id < created)
    && (forall p, q :: p in runners && q in runners && p != q ==> runners[p].id != runners[q].id)
  }

  /** Lookup-or-insert: the cached runner, or `candidate` (what
      `create_test_runner` builds) under the next serial number. The result:
      the runner returned, the new map and the new count. */
  function GetOrInsert(runners: map<string, Handle>, created: nat, package: string, candidate: Client.RemoteRunner)
    : (r: (Handle, map<string, Handle>, nat))
  {
    if package in runners then (runners[package], runners, created)
    else (Handle(created, candidate), runners[package := Handle(created, candidate)], created + 1)
  }

  /** The invariant is kept; the returned runner is the one now stored for the
      package; entries are only ever added, never replaced or removed; at most
      one runner is created, and exactly one when the package was absent. */
  lemma GetOrInsertKeeps(runners: map<string, Handle>, created: nat, package: string, candidate: Client.RemoteRunner)
    requires CacheValid(runners, created)
    ensures var (h, after, count) := GetOrInsert(runners, created, package, candidate);
      CacheValid(after, count)
      && package in after && after[package] == h
      && after.Keys == runners.Keys + {package}
      && (forall p :: p in runners ==> after[p] == runners[p])
      && (package in runners ==> count == created && after == runners)
      && (package !in runners ==>
            (count == created + 1 && h.runner == candidate
             && forall p :: p in runners ==> runners[p].id != h.id))
  {
  }

  /** Repeated calls for one package return the first call's runner and change
      nothing, whatever runner would have been built the second time. */
  lemma RepeatedCallsReturnFirst(runners: map<string, Handle>, created: nat, package: string,
                                 first: Client.RemoteRunner, second: Client.RemoteRunner)
    ensures var (h, after, count) := GetOrInsert(runners, created, package, first);
      GetOrInsert(after, count, package, second) == (h, after, count)
  {
  }

  /** Two different packages never share a runner. */
  lemma DistinctPackagesDistinctRunners(runners: map<string, Handle>, created: nat,
                                        p: string, q: string, a: Client.RemoteRunner, b: Client.RemoteRunner)
    requires CacheValid(runners, created) && p != q
    ensures var (hp, m1, c1) := GetOrInsert(runners, created, p, a);
      var (hq, m2, c2) := GetOrInsert(m1, c1, q, b);
      hp.id != hq.id && m2[p] == hp
  {
    GetOrInsertKeeps(runners, created, p, a);
    var (hp, m1, c1) := GetOrInsert(runners, created, p, a);
    GetOrInsertKeeps(m1, c1, q, b);
  }

  const ServerSideAssertion := "assertion failed: !running_as_server()"

  /** `RUNNERS_MAP` and `IS_SERVER_SIDE`, with the count of runners created so far. */
  class RunnerCache {
    var runners: map<string, Handle>
    var created: nat
    var serverSide: Option<bool>

    predicate Valid()
      reads this
    {
      CacheValid(runners, created)
    }

    constructor()
      ensures Valid()
      ensures runners == map[] && created == 0 && serverSide == None
    {
      runners := map[];
      created := 0;
      serverSide := None;
    }

    /** `running_as_server`. */
    method RunningAsServerCached(exePath: seq<string>) returns (b: bool)
      modifies this
      ensures (b, serverSide) == RunningAsServer(old(serverSide), exePath)
      ensures runners == old(runners) && created == old(created)
    {
      if serverSide.None? {
        serverSide := Some(DetectRunAsServer(exePath));
      }
      b := serverSide.value;
    }

    /** `get_test_runner`: refuses to run on the server side, then looks the
        package up and creates and stores a runner only when it is missing. */
    method GetTestRunner(package: string, exePath: seq<string>, candidate: Client.RemoteRunner)
      returns (r: Result<Handle>)
      requires Valid()
      modifies this
      ensures Valid()
      ensures serverSide == RunningAsServer(old(serverSide), exePath).1
      ensures RunningAsServer(old(serverSide), exePath).0 ==>
        r == Panic(ServerSideAssertion) && runners == old(runners) && created == old(created)
      ensures !RunningAsServer(old(serverSide), exePath).0 ==>
        (r.Ok? && (r.value, runners, created) == GetOrInsert(old(runners), old(created), package, candidate))
    {
      var server := RunningAsServerCached(exePath);
      if server {
        return Panic(ServerSideAssertion);
      }
      GetOrInsertKeeps(runners, created, package, candidate);
      if package in runners {
        return Ok(runners[package]);
      }
      var handle := Handle(created, candidate);
      runners := runners[package := handle];
      created := created + 1;
      return Ok(handle);
    }
  }
}
