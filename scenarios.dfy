// Clients of the service caller: short sequences of calls on one caller
// object, with what the model's contracts let a caller conclude.
module Scenarios {
  import opened AsciiCase
  import opened StringOrder
  import opened Registry
  import opened LoggerLevel

  /** A registry with nodes b, a, a live, where a advertises the service,
      the advertiser c is not live and b's service has the wrong type: the
      node list is a, a. */
  method DiscoveryKeepsLiveAdvertisedNodes(levelTypes: map<string, int>, severityNames: map<int, string>)
    returns (names: seq<string>)
    ensures names == ["a", "a"]
  {
    var caller := new LoggerLevelServiceCaller(levelTypes, severityNames);
    names := caller.GetNodeNames(ExampleLiveNodes, ExampleServices);
    ExampleDiscovery();
  }

  const ExampleLiveNodes: seq<string> := ["b", "a", "a"]
  const ExampleServices: seq<(string, seq<string>)> :=
    [ ("/a/set_logger_level", ["rcl_interfaces/SetLoggerLevel"]),
      ("/c/set_logger_level", ["rcl_interfaces/SetLoggerLevel"]),
      ("/b/set_logger_level", ["rcl_interfaces/GetLoggerLevel"]) ]

  lemma ExampleAdvertisers()
    ensures Advertises(ExampleServices, SetLevelPath("a"), SetLevelServiceType)
    ensures !Advertises(ExampleServices, SetLevelPath("b"), SetLevelServiceType)
  {
    assert LastFor(ExampleServices, 0);
    forall i | 0 <= i < |ExampleServices|
      ensures !(ExampleServices[i].0 == SetLevelPath("b") && SetLevelServiceType in ExampleServices[i].1)
    {
      assert SetLevelPath("b")[1] == 'b';
      if i < 2 {
        assert ExampleServices[i].0[1] != 'b';
      } else {
        assert SetLevelServiceType[15] == 'S';
        assert "rcl_interfaces/GetLoggerLevel"[15] == 'G';
      }
    }
  }

  lemma ExampleDiscovery()
    ensures CapableNodes(ExampleLiveNodes, ExampleServices) == ["a", "a"]
  {
    ExampleCounts(CapableNodes(ExampleLiveNodes, ExampleServices));
  }

  /** ExampleDiscovery's equation again, with the result passed in as
      `names`: naming it keeps the solver from unfolding the sort on the
      literal lists, which keeps the proof within its resource budget. */
  lemma ExampleCounts(names: seq<string>)
    requires names == CapableNodes(ExampleLiveNodes, ExampleServices)
    ensures names == ["a", "a"]
  {
    CapableNodesSpec(ExampleLiveNodes, ExampleServices);
    ExampleMultiset(names);
    assert IsSorted(["a", "a"]) by {
      LessEqReflexive("a");
    }
    SortedIsUnique(names, ["a", "a"]);
  }

  lemma ExampleMultiset(names: seq<string>)
    requires names == CapableNodes(ExampleLiveNodes, ExampleServices)
    ensures multiset(names) == multiset{"a", "a"}
  {
    CapableNodesSpec(ExampleLiveNodes, ExampleServices);
    ExampleAdvertisers();
    ExampleLiveCounts();
    forall n
      ensures multiset(names)[n] == multiset{"a", "a"}[n]
    {
    }
  }

  /** How often each name occurs among the example's live nodes. */
  lemma ExampleLiveCounts()
    ensures forall n ::
      multiset(ExampleLiveNodes)[n] == (if n == "a" then 2 else if n == "b" then 1 else 0)
  {
    assert multiset(ExampleLiveNodes) == multiset{"a", "a", "b"};
  }

  /** After a query reports DEBUG, asking for "debug" sends nothing. */
  method QueriedLevelSuppressesSameChange(levelTypes: map<string, int>, node: string)
    returns (queried: Result<string>, changed: Result<bool>, sent: Option<Call<SetLoggerLevelRequest>>)
    ensures queried == Ok("DEBUG")
    ensures changed == Ok(false) && sent == None
  {
    var caller := new LoggerLevelServiceCaller(levelTypes, RclpySeverityNames);
    var query;
    queried, query := caller.GetLoggerLevel(node, Done(Some(GetLoggerLevelResponse(10))));
    assert caller.currentLevels[node] == "DEBUG" && Lower("DEBUG") == Lower("debug");
    changed, sent := caller.SendLoggerChangeMessage(node, "debug", Done(Some(SetLoggerLevelResponse)));
  }

  /** A query that gets no answer returns "" and keeps the cached level, so
      the guard still applies to it. */
  method FailedQueryKeepsCachedLevel(levelTypes: map<string, int>, node: string)
    returns (first: Result<string>, second: Result<string>, changed: Result<bool>)
    ensures first == Ok("INFO") && second == Ok("")
    ensures changed == Ok(false)
  {
    var caller := new LoggerLevelServiceCaller(levelTypes, RclpySeverityNames);
    var query, change;
    first, query := caller.GetLoggerLevel(node, Done(Some(GetLoggerLevelResponse(20))));
    second, query := caller.GetLoggerLevel(node, Pending);
    assert caller.currentLevels[node] == "INFO" && Lower("INFO") == Lower("Info");
    changed, change := caller.SendLoggerChangeMessage(node, "Info", Pending);
  }

  /** A change that succeeds is not recorded in the cache: the same change
      asked for again is sent again and succeeds again. */
  method SuccessfulChangeIsNotCached(levelTypes: map<string, int>, node: string)
    returns (first: Result<bool>, second: Result<bool>, sent: Option<Call<SetLoggerLevelRequest>>)
    requires "DEBUG" in levelTypes
    ensures first == Ok(true) && second == Ok(true)
    ensures sent == Some(Call("/" + node + "/set_logger_level", SetLoggerLevelRequest("node", levelTypes["DEBUG"])))
  {
    var caller := new LoggerLevelServiceCaller(levelTypes, RclpySeverityNames);
    var answered := Done(Some(SetLoggerLevelResponse));
    assert Upper("DEBUG") == "DEBUG" by {
      assert Levels()[0] == "DEBUG";
    }
    var firstSent;
    first, firstSent := caller.SendLoggerChangeMessage(node, "DEBUG", answered);
    second, sent := caller.SendLoggerChangeMessage(node, "DEBUG", answered);
  }
}
