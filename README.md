# rqt_logger_level: the logger-level service caller

A Dafny model of `LoggerLevelServiceCaller`, the part of the rqt logger-level
panel that talks to running ROS 2 nodes. The class keeps two pieces of state:
`_node_names`, the nodes found by the last discovery, and `_current_levels`, a
cache from node name to the level name a query last returned. It has four
operations:

- `get_levels` returns the five level labels the panel offers.
- `get_node_names` takes one registry snapshot, sorts the live node names and
  keeps those whose `/<name>/set_logger_level` service is advertised with the
  type `rcl_interfaces/SetLoggerLevel`.
- `send_logger_change_message` asks a node to change its level. It sends
  nothing when the cache already holds that level, ignoring case.
- `get_logger_level` asks a node for its level and caches the answer.

Files:

- `ascii_case.dfy` (module `AsciiCase`): `str.lower()`, `str.upper()` and the
  case-insensitive comparison used by the guard.
- `string_order.dfy` (module `StringOrder`): Python's ordering of `str` values
  and `sorted()` as an insertion sort. It is proved to be the one sorted
  permutation of its input, so it returns what Python's sort returns.
- `registry.dfy` (module `Registry`): `dict()` over a list of pairs, where the
  last pair for a key wins.
- `service_caller.dfy` (module `LoggerLevel`): the request and response types,
  the discovery filter as functions with lemmas, and the class
  `LoggerLevelServiceCaller` with fields `nodeNames` and `currentLevels`.
- `scenarios.dfy` (module `Scenarios`): client methods that run one caller
  object through short call sequences.

The middleware is turned into inputs:

- The registry snapshot is a list of live node names plus a list of
  (service path, type list) pairs.
- The state of a call's future when the wait loop ends is a `FutureState`
  parameter. `Pending` covers a time-out or a shutdown. `Done(None)` is a
  finished call with no result. `Done(Some(response))` is an answer.
- `LoggerLevelType` (level name to request code) and `LoggingSeverity(code).name`
  (response code to severity name) are partial tables. They are fixed when the
  caller is constructed. A lookup that misses raises in the source; the model
  returns `Err(UnknownLevelName(..))` or `Err(UnknownSeverityCode(..))`.
- The constant `RclpySeverityNames` holds rclpy's `LoggingSeverity` values
  (UNSET 0, DEBUG 10, INFO 20, WARN 30, ERROR 40, FATAL 50). The scenarios
  use it. rclpy is not part of this model.

At these points the code does what a reader might not expect; the model follows the code:

- A successful `send_logger_change_message` does not write to the cache. The
  same change asked for twice is sent twice (`SuccessfulChangeIsNotCached`).
- `get_node_names` does not remove duplicates. A live name listed twice
  appears twice in the result (`CapableNodesSpec`, `ExampleDiscovery`).
- Every set request carries the logger name `"node"`, not the node's name.
- Discovery starts from the live node names and looks up each one's service
  path. It does not scan the service paths for names.

## Model

| member | source | states |
|---|---|---|
| `LoggerLevel.Levels` | src/rqt_logger_level/logger_level_service_caller.py:60-61 | five distinct labels, each already upper case, so `level.upper()` of a label is the label |
| `LoggerLevel.LevelsAscendBySeverity` | src/rqt_logger_level/logger_level_service_caller.py:60-61 | the labels are, in order, the names of severities 10, 20, 30, 40, 50, and every non-UNSET severity name is one of them |
| `StringOrder.Sort` | src/rqt_logger_level/logger_level_service_caller.py:69 | `sorted(names)` returns a permutation of its input |
| `StringOrder.Insert` | src/rqt_logger_level/logger_level_service_caller.py:69 | inserting adds exactly one copy of the name |
| `StringOrder.InsertKeepsSorted` | src/rqt_logger_level/logger_level_service_caller.py:69 | inserting into a sorted list keeps it sorted |
| `StringOrder.SortIsSorted` | src/rqt_logger_level/logger_level_service_caller.py:69 | the result of `sorted(names)` is in ascending Python string order |
| `StringOrder.SortedIsUnique` | src/rqt_logger_level/logger_level_service_caller.py:69 | two sorted lists with the same names are equal, so any correct sort gives this result |
| `StringOrder.SortIsTheSortedPermutation` | src/rqt_logger_level/logger_level_service_caller.py:69 | the model's sort equals every sorted arrangement of the input, including Python's |
| `StringOrder.LessEq` | src/rqt_logger_level/logger_level_service_caller.py:69 | Python's `<=` on `str`, which `sorted` orders by: code point by code point, and a prefix of a name comes before the name |
| `StringOrder.LessEqTotal` | src/rqt_logger_level/logger_level_service_caller.py:69 | any two names compare one way or the other |
| `StringOrder.LessEqTransitive` | src/rqt_logger_level/logger_level_service_caller.py:69 | string order is transitive |
| `StringOrder.LessEqAntisymmetric` | src/rqt_logger_level/logger_level_service_caller.py:69 | names that compare both ways are equal |
| `Registry.ToDict` | src/rqt_logger_level/logger_level_service_caller.py:70 | the dictionary's keys are exactly the service paths in the list |
| `Registry.ToDictLastWins` | src/rqt_logger_level/logger_level_service_caller.py:70 | for a path listed more than once, the last pair's type list is the one looked up |
| `Registry.ToDictFindsLast` | src/rqt_logger_level/logger_level_service_caller.py:70 | every looked-up type list comes from the last pair for its path |
| `LoggerLevel.SetLevelPath` | src/rqt_logger_level/logger_level_service_caller.py:72 | the set service path `'/{}/set_logger_level'` (also at :88) is absolute and 18 characters longer than the node's name |
| `LoggerLevel.GetLevelPath` | src/rqt_logger_level/logger_level_service_caller.py:122 | the get service path `'/{}/get_logger_level'` is absolute and 18 characters longer than the node's name |
| `LoggerLevel.SetLevelPathNamesNode` | src/rqt_logger_level/logger_level_service_caller.py:72 | two nodes with the same set service path are the same node |
| `LoggerLevel.GetLevelPathNamesNode` | src/rqt_logger_level/logger_level_service_caller.py:122 | two nodes with the same get service path are the same node |
| `LoggerLevel.SetAndGetPathsDiffer` | src/rqt_logger_level/logger_level_service_caller.py:88-122 | no node's set service path equals any node's get service path |
| `LoggerLevel.Answered` | src/rqt_logger_level/logger_level_service_caller.py:112 | the test that the call finished with a result (also at :140), as a definition; `SendLoggerChangeMessage` and `GetLoggerLevel` state their results through it |
| `LoggerLevel.Capable` | src/rqt_logger_level/logger_level_service_caller.py:72-74 | the test of the loop: `/<name>/set_logger_level` is a key of the service dictionary and its type list holds `rcl_interfaces/SetLoggerLevel`; what it means for the raw pair list is `CapableIffAdvertised` |
| `LoggerLevel.KeepCapable` | src/rqt_logger_level/logger_level_service_caller.py:71-75 | the append loop over a list of names; it never returns more names than it is given, and `KeepCapableCount` and `KeepCapableMember` state what it keeps |
| `LoggerLevel.CapableNodes` | src/rqt_logger_level/logger_level_service_caller.py:69-75 | what `get_node_names` returns: never more names than are live, and only live names; `CapableNodesSpec` gives its full meaning |
| `LoggerLevel.KeepCapableCount` | src/rqt_logger_level/logger_level_service_caller.py:71-75 | the loop keeps every copy of a capable name and no copy of another name |
| `LoggerLevel.KeepCapableMember` | src/rqt_logger_level/logger_level_service_caller.py:71-75 | a name is kept if and only if it is in the input and its set service has the SetLoggerLevel type |
| `LoggerLevel.KeepCapableSorted` | src/rqt_logger_level/logger_level_service_caller.py:71-75 | filtering a sorted list leaves it sorted |
| `LoggerLevel.CapableIffAdvertised` | src/rqt_logger_level/logger_level_service_caller.py:70-74 | the dictionary test holds exactly when the last pair for `/<name>/set_logger_level` lists `rcl_interfaces/SetLoggerLevel` |
| `LoggerLevel.CapableNodesSpec` | src/rqt_logger_level/logger_level_service_caller.py:68-77 | the discovery result is sorted, holds a live name iff its set service is advertised with the right type (so a non-live advertiser never appears), and keeps each such name as often as it is live |
| `LoggerLevel.LoggerLevelServiceCaller.CachedAs` | src/rqt_logger_level/logger_level_service_caller.py:89 | the early-return guard of the change request (a cached level for the node that equals the requested one ignoring case): it needs a cached entry for the node, and an entry equal to the requested level always triggers it |
| `LoggerLevel.LoggerLevelServiceCaller.constructor` | src/rqt_logger_level/logger_level_service_caller.py:54-58 | a new caller has an empty node list and an empty cache |
| `LoggerLevel.LoggerLevelServiceCaller.GetNodeNames` | src/rqt_logger_level/logger_level_service_caller.py:63-77 | the node list is rebuilt from empty, equals the returned list and the discovery result for the snapshot; the cache is unchanged |
| `LoggerLevel.LoggerLevelServiceCaller.SendLoggerChangeMessage` | src/rqt_logger_level/logger_level_service_caller.py:79-119 | a cached level equal ignoring case gives false with nothing sent; an unknown `level.upper()` is an error with nothing sent; otherwise one request with logger name "node" and the code of `level.upper()` goes to `/<node>/set_logger_level`, and the result is true exactly when the future finished with a result; a request is never sent for the level the cache already holds; when every severity name is upper case (as rclpy's are), the guard fires exactly when `level.upper()` is the cached name; no state changes |
| `LoggerLevel.LoggerLevelServiceCaller.GetLoggerLevel` | src/rqt_logger_level/logger_level_service_caller.py:121-149 | the request names the node and goes to `/<node>/get_logger_level`; an answer caches the severity name under the node, changes no other key, and returns that name; no answer returns "" and leaves the cache as it was; an unknown code is an error that leaves the cache as it was |
| `AsciiCase.Lower` | src/rqt_logger_level/logger_level_service_caller.py:89 | `str.lower()` keeps the length and lower-cases each character |
| `AsciiCase.Upper` | src/rqt_logger_level/logger_level_service_caller.py:94 | `str.upper()` keeps the length and upper-cases each character |
| `AsciiCase.EqualsIgnoreCase` | src/rqt_logger_level/logger_level_service_caller.py:89 | the guard's `a.lower() == b.lower()`, for the model's ASCII case mapping: equal names pass it, and names that pass it have the same length |
| `AsciiCase.IgnoreCaseIffSameUpper` | src/rqt_logger_level/logger_level_service_caller.py:89-94 | for the model's ASCII case mapping, two names are equal after `Lower` exactly when they are equal after `Upper`, so the guard and the constant lookup agree |
| `AsciiCase.IgnoreCaseAgainstCanonical` | src/rqt_logger_level/logger_level_service_caller.py:89-94 | for the model's ASCII case mapping, against an upper-case cached name the guard fires exactly when `Upper(level)` is that name |
| `Scenarios.DiscoveryKeepsLiveAdvertisedNodes` | src/rqt_logger_level/logger_level_service_caller.py:63-77 | live b, a, a with only a advertising the right type, and a non-live advertiser c, give the node list a, a |
| `Scenarios.ExampleAdvertisers` | src/rqt_logger_level/logger_level_service_caller.py:73-74 | in the example snapshot a's set service has the right type and b's does not |
| `Scenarios.ExampleDiscovery` | src/rqt_logger_level/logger_level_service_caller.py:69-75 | the example snapshot's discovery result is a, a |
| `Scenarios.ExampleCounts` | src/rqt_logger_level/logger_level_service_caller.py:69-75 | the same equation as `ExampleDiscovery` with the result passed in, derived from its counts and from sortedness |
| `Scenarios.ExampleMultiset` | src/rqt_logger_level/logger_level_service_caller.py:71-75 | the example's result holds a twice and nothing else |
| `Scenarios.QueriedLevelSuppressesSameChange` | src/rqt_logger_level/logger_level_service_caller.py:89-143 | after a query answers DEBUG, asking for "debug" returns false and sends nothing |
| `Scenarios.FailedQueryKeepsCachedLevel` | src/rqt_logger_level/logger_level_service_caller.py:89-149 | a query with no answer returns "" and the earlier cached INFO still suppresses a change to "Info" |
| `Scenarios.SuccessfulChangeIsNotCached` | src/rqt_logger_level/logger_level_service_caller.py:89-113 | two identical successful changes are both sent and both return true, because a change is not cached |

## Left out

- `logger_level_widget.py`: Qt view code (UI loading, signal wiring, row bounds checks). Its level change calls rclpy locally rather than through this class.
- The `wait_for_service` loops and the time-limited busy-wait after `call_async`: they poll live infrastructure and the wall clock. Only their final outcome is modelled, as the `FutureState` parameter. A service that never appears makes the source loop forever; the model has no such case.
- `get_service_class`, `create_client`, `call_async` and the `_node` handle: client library calls, replaced by the snapshot parameters, the returned `Call` values and the future parameter.
- An exception stored in the future, which `future.result()` would raise: not modelled; a finished call is either with or without a result.
- `qWarning` diagnostics and `self.tr` translation: side channels; `tr` is the identity.
- The `QObject` base class and threading: the model is single-threaded.
- The values of the `LoggerLevelType` constants: they are an input table, because the message package that defines them is not part of this model.
- `getattr` on the constants class also finds attributes that are not level constants; the model looks up only the table.
- `AsciiCase.Lower`: maps only ASCII letters, because Unicode case mapping (for example `"ß".upper() == "SS"`) is not modelled.
- `AsciiCase.Upper`: maps only ASCII letters, for the same reason.
- `AsciiCase.IgnoreCaseIffSameUpper`, `AsciiCase.IgnoreCaseAgainstCanonical`: hold for the ASCII mapping only. For Python strings in general, lower-case equality and upper-case equality differ (`"\u212A".lower() == "k"` but `"\u212A".upper() != "K"`).
- `LoggerLevel.LoggerLevelServiceCaller.GetNodeNames`: returns a value, so it does not model that the source hands out its own `_node_names` list object. A later call rebinds the field to a new list, so the list handed out earlier is never changed.
