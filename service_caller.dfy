// LoggerLevelServiceCaller: discovers the nodes that offer the
// set_logger_level service, asks a node for its level (caching the answer)
// and asks a node to change its level unless the cache already shows it.
//
// The middleware is not modelled: the registry snapshot is passed in as a
// list of live node names and a list of (service path, type list) pairs, and
// the state of a call's future when the wait loop ends is passed in as a
// FutureState. The two enumerations of the client library (the
// LoggerLevelType constants and the LoggingSeverity names) are partial
// tables fixed when the caller is constructed.
module LoggerLevel {
  import opened AsciiCase
  import opened StringOrder
  import opened Registry

  datatype Option<T> = None | Some(value: T)

  /** What the source raises instead of returning. */
  datatype Error =
    | UnknownLevelName(attribute: string)   // getattr(LoggerLevelType, level.upper()) fails
    | UnknownSeverityCode(code: int)        // LoggingSeverity(code) fails

  datatype Result<T> = Ok(value: T) | Err(error: Error)

  /** The future of an asynchronous call as the wait loop leaves it: still
      pending (time-out or shutdown), or done with a result that may be None. */
  datatype FutureState<R> = Pending | Done(result: Option<R>)

  /** `future.done() and future.result() is not None` */
  predicate Answered<R>(f: FutureState<R>)
  {
    f.Done? && f.result.Some?
  }

  datatype SetLoggerLevelRequest = SetLoggerLevelRequest(name: string, loggerLevel: int)
  datatype SetLoggerLevelResponse = SetLoggerLevelResponse
  datatype GetLoggerLevelRequest = GetLoggerLevelRequest(name: string)
  datatype GetLoggerLevelResponse = GetLoggerLevelResponse(loggerLevel: int)

  /** A request sent to the service at `servicePath`. */
  datatype Call<Req> = Call(servicePath: string, request: Req)

  const SetLevelServiceType := "rcl_interfaces/SetLoggerLevel"

  /** The logger name every set request carries, whatever the node. */
  const SetRequestLoggerName := "node"

  /** '/{}/set_logger_level'.format(node): the node's name sits between
      the two slashes, so distinct nodes have distinct paths. */
  function SetLevelPath(node: string): (path: string)
    ensures |path| == |node| + 18 && path[0] == '/'
  {
    "/" + node + "/set_logger_level"
  }

  /** '/{}/get_logger_level'.format(node), likewise naming its node. */
  function GetLevelPath(node: string): (path: string)
    ensures |path| == |node| + 18 && path[0] == '/'
  {
    "/" + node + "/get_logger_level"
  }

  /** The set service path names its node: distinct nodes never share one. */
  lemma {:induction false} SetLevelPathNamesNode(a: string, b: string)
    requires SetLevelPath(a) == SetLevelPath(b)
    ensures a == b
  {
    assert a == SetLevelPath(a)[1..|a| + 1];
    assert b == SetLevelPath(b)[1..|b| + 1];
  }

  /** Likewise for the get service path. */
  lemma {:induction false} GetLevelPathNamesNode(a: string, b: string)
    requires GetLevelPath(a) == GetLevelPath(b)
    ensures a == b
  {
    assert a == GetLevelPath(a)[1..|a| + 1];
    assert b == GetLevelPath(b)[1..|b| + 1];
  }

  /** A node's set service and any node's get service have different paths. */
  lemma {:induction false} SetAndGetPathsDiffer(a: string, b: string)
    ensures SetLevelPath(a) != GetLevelPath(b)
  {
    if |a| == |b| {
      assert SetLevelPath(a)[|a| + 2] == 's';
      assert GetLevelPath(b)[|b| + 2] == 'g';
    }
  }

  // ---------------------------------------------------------------------
  // The level labels offered to the user

  /** get_levels(): five distinct labels, each already in upper case, so
      that `level.upper()` of a label is the label itself. */
  function Levels(): (r: seq<string>)
    ensures |r| == 5
    ensures forall i :: 0 <= i < |r| ==> Upper(r[i]) == r[i]
    ensures forall i, j :: 0 <= i < j < |r| ==> r[i] != r[j]
  {
    ["DEBUG", "INFO", "WARN", "ERROR", "FATAL"]
  }

  /** The names of rclpy's LoggingSeverity members by value. */
  const RclpySeverityNames: map<int, string> :=
    map[0 := "UNSET", 10 := "DEBUG", 20 := "INFO", 30 := "WARN", 40 := "ERROR", 50 := "FATAL"]

  /** The labels are the names of the five set severities in ascending order
      of severity, so each label a node can report is one the list offers. */
  lemma LevelsAscendBySeverity()
    ensures forall i :: 0 <= i < 5 ==>
      10 * (i + 1) in RclpySeverityNames && RclpySeverityNames[10 * (i + 1)] == Levels()[i]
    ensures forall code :: code in RclpySeverityNames && code != 0 ==> RclpySeverityNames[code] in Levels()
  {
  }

  // ---------------------------------------------------------------------
  // Discovery filter

  /** The node's set_logger_level service is advertised with the right type. */
  predicate Capable(node: string, services: map<string, seq<string>>)
  {
    SetLevelPath(node) in services && SetLevelServiceType in services[SetLevelPath(node)]
  }

  /** The loop body of get_node_names over a prefix of the sorted names:
      names are kept in order and a repeated name is kept every time. */
  function KeepCapable(nodes: seq<string>, services: map<string, seq<string>>): (r: seq<string>)
    ensures |r| <= |nodes|
  {
    if nodes == [] then []
    else
      var rest := KeepCapable(nodes[..|nodes| - 1], services);
      var node := nodes[|nodes| - 1];
      if Capable(node, services) then rest + [node] else rest
  }

  /** What get_node_names returns for a registry snapshot. */
  function CapableNodes(liveNodes: seq<string>, services: seq<(string, seq<string>)>): (r: seq<string>)
    ensures |r| <= |liveNodes|
    ensures forall n :: n in r ==> n in liveNodes
  {
    var sorted := Sort(liveNodes);
    assert forall n :: n in KeepCapable(sorted, ToDict(services)) ==> n in liveNodes by {
      forall n | n in KeepCapable(sorted, ToDict(services))
        ensures n in liveNodes
      {
        KeepCapableMember(sorted, ToDict(services), n);
        assert n in multiset(sorted);
      }
    }
    assert |sorted| == |multiset(sorted)| == |multiset(liveNodes)| == |liveNodes|;
    KeepCapable(sorted, ToDict(services))
  }

  /** The filter keeps every copy of a capable name and no copy of any other. */
  lemma {:induction false} KeepCapableCount(nodes: seq<string>, services: map<string, seq<string>>, n: string)
    ensures multiset(KeepCapable(nodes, services))[n]
         == if Capable(n, services) then multiset(nodes)[n] else 0
  {
    if nodes != [] {
      var front := nodes[..|nodes| - 1];
      KeepCapableCount(front, services, n);
      assert nodes == front + [nodes[|nodes| - 1]];
    }
  }

  lemma KeepCapableMember(nodes: seq<string>, services: map<string, seq<string>>, n: string)
    ensures n in KeepCapable(nodes, services) <==> n in nodes && Capable(n, services)
  {
    KeepCapableCount(nodes, services, n);
    assert n in KeepCapable(nodes, services) <==> n in multiset(KeepCapable(nodes, services));
    assert n in nodes <==> n in multiset(nodes);
  }

  /** Filtering a sorted list leaves it sorted. */
  lemma {:induction false} KeepCapableSorted(nodes: seq<string>, services: map<string, seq<string>>)
    requires IsSorted(nodes)
    ensures IsSorted(KeepCapable(nodes, services))
  {
    if nodes != [] {
      var front := nodes[..|nodes| - 1];
      var last := nodes[|nodes| - 1];
      var rest := KeepCapable(front, services);
      assert IsSorted(front);
      KeepCapableSorted(front, services);
      forall k | 0 <= k < |rest|
        ensures LessEq(rest[k], last)
      {
        KeepCapableMember(front, services, rest[k]);
        var m :| 0 <= m < |front| && front[m] == rest[k];
        assert nodes[m] == rest[k];
      }
    }
  }

  /** The service type is advertised for `path` by the last pair that names
      it (dict() of the pair list keeps the last one). */
  ghost predicate Advertises(services: seq<(string, seq<string>)>, path: string, serviceType: string)
  {
    exists i :: LastFor(services, i) && services[i].0 == path && serviceType in services[i].1
  }

  lemma CapableIffAdvertised(node: string, services: seq<(string, seq<string>)>)
    ensures Capable(node, ToDict(services)) <==> Advertises(services, SetLevelPath(node), SetLevelServiceType)
  {
    var path := SetLevelPath(node);
    if Capable(node, ToDict(services)) {
      ToDictFindsLast(services, path);
    }
    if Advertises(services, path, SetLevelServiceType) {
      var i :| LastFor(services, i) && services[i].0 == path && SetLevelServiceType in services[i].1;
      ToDictLastWins(services, i);
    }
  }

  /** get_node_names returns the live names in ascending order, keeps a name
      exactly when its set_logger_level service is advertised with the
      SetLoggerLevel type, keeps every copy of a repeated live name, and never
      returns a name that is not live, whatever services are advertised. */
  lemma CapableNodesSpec(liveNodes: seq<string>, services: seq<(string, seq<string>)>)
    ensures IsSorted(CapableNodes(liveNodes, services))
    ensures forall n :: n in CapableNodes(liveNodes, services) <==>
      n in liveNodes && Advertises(services, SetLevelPath(n), SetLevelServiceType)
    ensures forall n ::
      multiset(CapableNodes(liveNodes, services))[n] ==
      (if Advertises(services, SetLevelPath(n), SetLevelServiceType) then multiset(liveNodes)[n] else 0)
  {
    var sorted := Sort(liveNodes);
    var table := ToDict(services);
    SortIsSorted(liveNodes);
    KeepCapableSorted(sorted, table);
    forall n
      ensures n in CapableNodes(liveNodes, services) <==>
        n in liveNodes && Advertises(services, SetLevelPath(n), SetLevelServiceType)
      ensures multiset(CapableNodes(liveNodes, services))[n] ==
        (if Advertises(services, SetLevelPath(n), SetLevelServiceType) then multiset(liveNodes)[n] else 0)
    {
      CapableIffAdvertised(n, services);
      KeepCapableMember(sorted, table, n);
      KeepCapableCount(sorted, table, n);
      assert n in sorted <==> n in multiset(sorted);
      assert n in liveNodes <==> n in multiset(liveNodes);
    }
  }

  // ---------------------------------------------------------------------
  // The service caller

  class LoggerLevelServiceCaller {
    /** getattr(LoggerLevelType, NAME): the request code of a level name. */
    const levelTypes: map<string, int>
    /** LoggingSeverity(code).name: the severity name of a response code. */
    const severityNames: map<int, string>

    /** _node_names: the result of the last discovery. */
    var nodeNames: seq<string>
    /** _current_levels: node name to the last level name a query returned. */
    var currentLevels: map<string, string>

    /** The node list is sorted, and the cache holds only severity names. */
    ghost predicate Valid()
      reads this
    {
      && IsSorted(nodeNames)
      && forall node :: node in currentLevels ==> IsSeverityName(currentLevels[node])
    }

    /** `name` is LoggingSeverity(code).name for some code. */
    ghost predicate IsSeverityName(name: string)
    {
      exists code :: code in severityNames && severityNames[code] == name
    }

    /** Every severity name is in upper case, as rclpy's are. */
    predicate SeverityNamesUpperCase()
    {
      forall code :: code in severityNames ==> Upper(severityNames[code]) == severityNames[code]
    }

    /** The cache already shows `level` for `node`, ignoring case. */
    predicate CachedAs(node: string, level: string)
      reads this
      ensures CachedAs(node, level) ==> node in currentLevels
      ensures node in currentLevels && currentLevels[node] == level ==> CachedAs(node, level)
    {
      node in currentLevels && EqualsIgnoreCase(currentLevels[node], level)
    }

    constructor (levelTypes: map<string, int>, severityNames: map<int, string>)
      ensures Valid()
      ensures this.levelTypes == levelTypes && this.severityNames == severityNames
      ensures nodeNames == [] && currentLevels == map[]
    {
      this.levelTypes := levelTypes;
      this.severityNames := severityNames;
      nodeNames := [];
      currentLevels := map[];
    }

    /** get_node_names(): rebuilds the node list from scratch out of one
        registry snapshot and returns it. */
    method GetNodeNames(liveNodes: seq<string>, services: seq<(string, seq<string>)>)
      returns (names: seq<string>)
      requires Valid()
      modifies this
      ensures Valid()
      ensures names == nodeNames == CapableNodes(liveNodes, services)
      ensures currentLevels == old(currentLevels)
    {
      nodeNames := [];
      var nodes := Sort(liveNodes);
      var table := ToDict(services);
      var i := 0;
      while i < |nodes|
        invariant 0 <= i <= |nodes|
        invariant nodeNames == KeepCapable(nodes[..i], table)
        invariant currentLevels == old(currentLevels)
      {
        var name := nodes[i];
        var path := SetLevelPath(name);
        if path in table && SetLevelServiceType in table[path] {
          nodeNames := nodeNames + [name];
        }
        assert nodes[..i + 1][..i] == nodes[..i];
        i := i + 1;
      }
      assert nodes[..i] == nodes;
      names := nodeNames;
      CapableNodesSpec(liveNodes, services);
    }

    /** send_logger_change_message(node, level): skipped (false, nothing
        sent) when the cache already shows the level; otherwise sends the
        code of level.upper() under the logger name "node" and reports
        whether an answer came back. Never touches the cache. */
    method SendLoggerChangeMessage(node: string, level: string, future: FutureState<SetLoggerLevelResponse>)
      returns (r: Result<bool>, sent: Option<Call<SetLoggerLevelRequest>>)
      requires Valid()
      ensures CachedAs(node, level) ==> r == Ok(false) && sent == None
      ensures !CachedAs(node, level) && Upper(level) !in levelTypes ==>
        r == Err(UnknownLevelName(Upper(level))) && sent == None
      ensures !CachedAs(node, level) && Upper(level) in levelTypes ==>
        && sent == Some(Call(SetLevelPath(node), SetLoggerLevelRequest(SetRequestLoggerName, levelTypes[Upper(level)])))
        && r == Ok(Answered(future))
      ensures r == Ok(true) <==> sent.Some? && Answered(future)
      ensures sent.Some? ==> node !in currentLevels || Upper(currentLevels[node]) != Upper(level)
      ensures SeverityNamesUpperCase() ==>
        (CachedAs(node, level) <==> node in currentLevels && currentLevels[node] == Upper(level))
    {
      if node in currentLevels {
        var cached := currentLevels[node];
        IgnoreCaseIffSameUpper(cached, level);
        if SeverityNamesUpperCase() {
          var code :| code in severityNames && severityNames[code] == cached;
          IgnoreCaseAgainstCanonical(cached, level);
        }
      }
      if node in currentLevels && Lower(currentLevels[node]) == Lower(level) {
        return Ok(false), None;
      }
      var attribute := Upper(level);
      if attribute !in levelTypes {
        return Err(UnknownLevelName(attribute)), None;
      }
      var request := SetLoggerLevelRequest(SetRequestLoggerName, levelTypes[attribute]);
      sent := Some(Call(SetLevelPath(node), request));
      if future.Done? && future.result.Some? {
        r := Ok(true);
      } else {
        r := Ok(false);
      }
    }

    /** get_logger_level(node_name): asks the node for its level; on an
        answer, caches the severity name under the node and returns it; on
        no answer, returns "" and leaves the cache as it was. */
    method GetLoggerLevel(nodeName: string, future: FutureState<GetLoggerLevelResponse>)
      returns (r: Result<string>, sent: Call<GetLoggerLevelRequest>)
      requires Valid()
      modifies this
      ensures Valid()
      ensures sent == Call(GetLevelPath(nodeName), GetLoggerLevelRequest(nodeName))
      ensures nodeNames == old(nodeNames)
      ensures !Answered(future) ==> r == Ok("") && currentLevels == old(currentLevels)
      ensures Answered(future) && future.result.value.loggerLevel !in severityNames ==>
        r == Err(UnknownSeverityCode(future.result.value.loggerLevel)) && currentLevels == old(currentLevels)
      ensures Answered(future) && future.result.value.loggerLevel in severityNames ==>
        && r == Ok(severityNames[future.result.value.loggerLevel])
        && currentLevels == old(currentLevels)[nodeName := r.value]
    {
      sent := Call(GetLevelPath(nodeName), GetLoggerLevelRequest(nodeName));
      if future.Done? && future.result.Some? {
        var code := future.result.value.loggerLevel;
        if code !in severityNames {
          return Err(UnknownSeverityCode(code)), sent;
        }
        currentLevels := currentLevels[nodeName := severityNames[code]];
        r := Ok(currentLevels[nodeName]);
      } else {
        r := Ok("");
      }
    }
  }
}
