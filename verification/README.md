# Verification of the Flink Python API

This project models the Python side of the batch API that the Flink image ships
(`dockerfile/flink-app/flink/resources/python/flink`) and proves what it promises.

The parts, in the order in which a program passes through them:

- **Plan.** `PlanGraph` has the operator graph as a value and the chaining pass over it; `ChainStep`,
  `Chains` and `ChainResults` say what one merge and the whole pass do; `Environment` is the pass on
  heap objects, rewriting edges in place; `PlanBuilders`, `DataSet` and `CoGroupPlans` are the
  operations that build a plan; `BuiltPlans` has what the pass does to every plan that they build, and
  `CoGroupExample` a program that it does not treat well.
- **Meaning.** `PlanMeaning` gives every operation the records it produces and shows that chaining
  changes none of them; `PlanMeaningExact` and `BuiltMeaning` say exactly when; `PlanSolutions` shows
  that a plan has exactly one meaning.
- **Run time.** `FusedChain` pushes records through a chain of operator objects; `ChainRuntime` ties
  that to the meaning of the plan; `GroupIteration`, `Reducers`, `CoGroup` and `Aggregation` are the
  iterators over groups and the drivers of user functions.
- **Data.** `Packing`, `Codec` and `CodecLaws` are the binary format; `RecordStream` and
  `RecordOutput` are the iterator and the collector that keep the (de)serializers of the first record;
  `WireFormat` spells out the bytes in both directions.
- **Buffers.** `Connection` batches messages into frames, `Handshake` is the shared buffer as an
  interleaving of two parties, `SingleReader` reads one input from a buffer, `TwinReader` two
  groups from one.
- **Index arithmetic.** `KeyRemap` and `ZipWithIndex`.

Code that changes state is modelled by classes and loops proved against specification functions; the
promises are then proved about those functions. An exception is `None` (or `ok == false`). A member
named `...Ok`, compared with `true` where it is used, is the body of the predicate of nearly the same
name; this keeps the verifier from taking a large condition apart.

Four findings, each stated exactly:

- The conditions on broadcast variables in the guard of the chaining pass have no effect
  (`ChainResults.BroadcastGuardIsVacuous`). A set that feeds a broadcast variable can have another set
  merged into it, and then the broadcast variable reads the wrong records
  (`BuiltMeaning.BuiltMeaningIff`).
- `co_group` registers itself as a child of the second data set although it reads a key map of it. If the
  second data set is merged into its own input, the co-group reads the result of that merge instead of its
  key map (`BuiltPlans.CoGroupKeepsInputIff`), and some user functions then compute something else
  (`BuiltMeaning.BuiltMeaningIff`). Nothing else in the plan suffers (`BuiltPlans.PassOfBuilt`).
- The 93rd registered type has the tag of booleans (`CodecLaws.DispatchIff`).
- A group reducer that does not read a group to its end is called again for the rest
  (`Reducers.OneCallPerGroupIff`), and without end if it reads nothing (`Reducers.StuckCalls`).

## Model

| member | source | states |
|---|---|---|
| Environment.Environment.FindChains | dockerfile/flink-app/flink/resources/python/flink/plan/Environment.py:268-317 | The countdown loop over the heap objects leaves exactly the plan that the pass over the value plan gives, for every plan whose references and child lists can be followed, co-groups included; every set that is not a map, filter or flat map is still listed. |
| Environment.Environment.TrySet | dockerfile/flink-app/flink/resources/python/flink/plan/Environment.py:275-317 | One iteration: a set is removed if and only if it is a map, filter or flat map whose parent has an operator, one child and no sinks; it is then merged into its parent, and otherwise nothing changes. |
| Environment.Environment.MergeIntoParent | dockerfile/flink-app/flink/resources/python/flink/plan/Environment.py:284-316 | All loops of one merge together rewrite the objects as the merge of the value plan does. |
| Environment.Environment.AdoptGrandchildren | dockerfile/flink-app/flink/resources/python/flink/plan/Environment.py:288-297 | The loop over the grandchildren, in place, while the list it runs over stays fixed. |
| Environment.Environment.RedirectBroadcast | dockerfile/flink-app/flink/resources/python/flink/plan/Environment.py:303-305 | Broadcast variables that read the merged set, found by id, read the parent; all others stay. |
| Environment.Environment.RemoveSet | dockerfile/flink-app/flink/resources/python/flink/plan/Environment.py:319-320 | Filtering by id keeps the other sets in order. |
| ChainStep.MergeEffect | dockerfile/flink-app/flink/resources/python/flink/plan/Environment.py:284-316 | What the loops of a merge do to each single node, in closed form, in terms of how often the node is visited. |
| ChainStep.MergeKeepsRunnable | dockerfile/flink-app/flink/resources/python/flink/plan/Environment.py:284-316 | After a merge the pass can go on: references, unique ids, the order of the sets and the child lists are intact. |
| ChainStep.MergeKeepsWellFormed | dockerfile/flink-app/flink/resources/python/flink/plan/Environment.py:287-320 | A merge keeps the child lists complete, and exact for every set that passes the guard, keeps forward and backward edges of sinks and broadcast variables in agreement, ids unique and producers before consumers. |
| ChainStep.MergeKeepsExactEdges | dockerfile/flink-app/flink/resources/python/flink/plan/Environment.py:287-297 | Each node is listed as a child exactly once per input that points back, and stays so, also for a union or cross of a set with itself, whose first visit moves `parent` and whose second moves `other`. |
| Chains.PassIsRewritten | dockerfile/flink-app/flink/resources/python/flink/plan/Environment.py:268-317 | The whole pass merges exactly the sets that pass the guard in the plan as built; every field of every node afterwards is given by the original plan (children, sinks and types of the last link, names joined along the chain, broadcast variables concatenated, inputs replaced by heads). |
| ChainResults.TriedSetIsRemovedIff | dockerfile/flink-app/flink/resources/python/flink/plan/Environment.py:269-283 | One iteration on the value plan, with the kinds of operations spelled out: the set it tries is removed exactly if it is a map, filter or flat map whose parent has an operator, one child and no sinks. |
| ChainResults.OtherKindsSurvive | dockerfile/flink-app/flink/resources/python/flink/plan/Environment.py:269-279 | However far the pass has got, an operation of any other kind is still a set of the plan. |
| ChainResults.PairMerged | dockerfile/flink-app/flink/resources/python/flink/plan/Environment.py:284-316 | When one set alone is merged into its parent, the parent gets both names with an arrow between them, the output type, children and sinks of the set, and the broadcast variables of both, its own first; everything else of it stays. |
| BuiltPlans.PassOfBuilt | dockerfile/flink-app/flink/resources/python/flink/plan/Environment.py:268-317 | On every plan that a program can build, with any number of co-groups, the pass merges exactly the sets that pass the guard in the plan as built, and gives the plan it would give if each misdirected co-group read the data set it was built with instead of its key map; for that plan every field of every node is known. |
| BuiltPlans.RemovedIff | dockerfile/flink-app/flink/resources/python/flink/plan/Environment.py:269-283 | Over the whole pass on any built plan: a set is removed if and only if, in the plan as built, it is a map, filter or flat map whose parent has an operator, one child and no sinks. |
| BuiltPlans.OneChainEach | dockerfile/flink-app/flink/resources/python/flink/plan/Environment.py:268-320 | Every operation of a built plan lies on the chain of one surviving operation and on no other. |
| BuiltPlans.BuiltLosesNothing | dockerfile/flink-app/flink/resources/python/flink/plan/Environment.py:268-320 | The chains of the surviving sets of a built plan together are a permutation of the original sets, so their lengths sum to the original number. |
| BuiltPlans.NothingChainedBefore | dockerfile/flink-app/flink/resources/python/flink/plan/Environment.py:284-284 | Whenever the pass over a built plan merges a set, nothing was chained to its parent before. |
| BuiltPlans.BuiltFixpoint | dockerfile/flink-app/flink/resources/python/flink/plan/Environment.py:271-317 | A second pass over a built plan finds nothing to merge. |
| ChainResults.BroadcastGuardIsVacuous | dockerfile/flink-app/flink/resources/python/flink/plan/Environment.py:283-283 | The two broadcast conditions of the guard never stop a merge, contrary to the comments above them: the lists they look into hold broadcast operations only. |
| PlanMeaning.PassPreservesMeaning | dockerfile/flink-app/flink/resources/python/flink/plan/Environment.py:268-317 | For all user functions, stateful ones included, and every solution of the plan, the optimised plan, whose heads run their chain, is solved by the same records at every head, sink and broadcast variable. |
| PlanMeaning.SolvedAsBuilt | dockerfile/flink-app/flink/resources/python/flink/functions/Function.py:43-51 | What a solution is, for a plan as built: a map, filter or flat map has what its function emits for the records of its input, record by record, and every other operation what its function makes of its inputs, the parent first. |
| PlanMeaning.SeenAsBuilt | dockerfile/flink-app/flink/resources/python/flink/functions/Function.py:66-82 | Under a name a user function sees the records of the operation that the broadcast variable registered last under that name reads. |
| BuiltMeaning.BuiltMeaningIff | dockerfile/flink-app/flink/resources/python/flink/plan/Environment.py:268-317 | The meaning of a built plan is preserved for all user functions if and only if no merged set has a stale co-group among its children, no broadcast variable reads a set into which another is merged, and no chain gives a broadcast name of one of its links another meaning. |
| BuiltMeaning.MisdirectedBreaks | dockerfile/flink-app/flink/resources/python/flink/plan/Environment.py:290-294 | Wherever the data set that a co-group was built with is merged, there are user functions for which the optimised plan computes something else. |
| PlanMeaningExact.FusedSourceBreaks | dockerfile/flink-app/flink/resources/python/flink/plan/Environment.py:283-283 | Wherever a broadcast variable reads a set into which another is merged, there are user functions for which it reads other records afterwards. |
| PlanMeaningExact.NameClashBreaks | dockerfile/flink-app/flink/resources/python/flink/plan/Environment.py:311-313 | Wherever a broadcast name means something else to the chain than to one of its links, there are user functions for which the result changes. |
| PlanSolutions.SolutionExists | dockerfile/flink-app/flink/resources/python/flink/plan/Environment.py:268-317 | Without circular dependencies every plan, optimised or not, has exactly one solution, whatever the user functions do. |
| PlanSolutions.OptimisedMeaningUnique | dockerfile/flink-app/flink/resources/python/flink/plan/Environment.py:268-317 | Without circular dependencies the optimised plan has no other solution than the original one. |
| PlanBuilders.AddSourceKeepsBuilt | dockerfile/flink-app/flink/resources/python/flink/plan/Environment.py:127-135 | Adding a source keeps what every built plan has: closed references in order, ids below the counter, agreeing edges of sinks and broadcast variables, and child lists that are exact up to one stale entry per co-group. |
| PlanBuilders.AddSetKeepsBuilt | dockerfile/flink-app/flink/resources/python/flink/plan/DataSet.py:501-513 | So does an operation with one input such as map. |
| PlanBuilders.AddDualKeepsBuilt | dockerfile/flink-app/flink/resources/python/flink/plan/DataSet.py:337-346 | So does a cross, union or join, also of a set with itself. |
| PlanBuilders.AddSinkKeepsBuilt | dockerfile/flink-app/flink/resources/python/flink/plan/DataSet.py:88-97 | So does a sink. |
| PlanBuilders.AddBroadcastKeepsBuilt | dockerfile/flink-app/flink/resources/python/flink/plan/DataSet.py:665-673 | So does a broadcast variable. |
| PlanBuilders.BuiltIsWellFormedIff | dockerfile/flink-app/flink/resources/python/flink/plan/Environment.py:283-297 | A built plan meets the requirements of the pass if and only if no set that passes the guard lists a child that does not read it. |
| PlanBuilders.AddDualIs | dockerfile/flink-app/flink/resources/python/flink/plan/DataSet.py:337-346 | The step of a union, cross or join, field by field: the parent is the data set it is called on, the other input is the argument, both list it as a child. |
| PlanBuilders.TwoInputsIff | dockerfile/flink-app/flink/resources/python/flink/plan/Environment.py:290-292 | The kinds of operations for which a merge looks at the second input are exactly join, cross, their hinted forms, co-group and union. |
| DataSet.DataSet.Apply | dockerfile/flink-app/flink/resources/python/flink/plan/DataSet.py:501-513 | The builder of operations with one input, in place: the new plan is the old one with the operation added, and it stays a built plan. |
| DataSet.DataSet.Combine | dockerfile/flink-app/flink/resources/python/flink/plan/DataSet.py:600-608 | The same for union, cross and join. |
| DataSet.DataSet.Output | dockerfile/flink-app/flink/resources/python/flink/plan/DataSet.py:88-97 | The same for sinks. |
| DataSet.DataSet.WithBroadcastSet | dockerfile/flink-app/flink/resources/python/flink/plan/DataSet.py:665-673 | The same for broadcast variables, which get no id. |
| DataSet.DataSet.CoGroup | dockerfile/flink-app/flink/resources/python/flink/plan/DataSet.py:292-298 | The four calls that build a co-group, in place and in order; the plan stays a built plan, so that any operation can follow. |
| DataSet.OptimizePlan | dockerfile/flink-app/flink/resources/python/flink/plan/Environment.py:265-266 | Whatever a program built, the plan in memory becomes the chained plan, which is well formed and a fixpoint of the pass, and whose chains hold every set once; an object leaves the list of sets if and only if it is a map, filter or flat map whose parent has an operator, one child and no sinks. |
| CoGroupPlans.CoGroupKeepsBuilt | dockerfile/flink-app/flink/resources/python/flink/plan/DataSet.py:293-298 | A co-group keeps a built plan built; it is a stale child in the list of its second data set, and every other list is exact about it. |
| BuiltPlans.CoGroupKeepsInputIff | dockerfile/flink-app/flink/resources/python/flink/plan/DataSet.py:293-293 | For every co-group of every built plan, whatever else was built before or after it: after the pass it still reads its key map if and only if the data set it was built with does not pass the guard; otherwise it reads the operation that the data set was merged into. |
| CoGroupExample.CoGroupGoesWrong | dockerfile/flink-app/flink/resources/python/flink/plan/DataSet.py:293-293 | A concrete program, two maps, a co-group and a sink, in which the pass redirects the co-group to the wrong operation. |
| BuiltPlans.StaleChildIsMisdirected | dockerfile/flink-app/flink/resources/python/flink/plan/Environment.py:290-294 | Whenever a set with a stale child is merged, the second input of that child is overwritten, whatever it was. |
| FusedChain.PushedIsStaged | dockerfile/flink-app/flink/resources/python/flink/functions/Function.py:45-51 | Pushing records one by one through a chain of stateful map, filter and flat map functions yields the output of running them one after another on whole lists, and the same final states. |
| FusedChain.StagedIsOutputs | dockerfile/flink-app/flink/resources/python/flink/functions/FlatMapFunction.py:25-41 | What the staged output is, without reference to execution: each function is applied to the output of the one before, where the output of a function is what the next three rows say. |
| FusedChain.MapOutput | dockerfile/flink-app/flink/resources/python/flink/functions/MapFunction.py:25-33 | A map hands on one record per record of its input, the i-th being what its function gives for the i-th record in the state it then has. |
| FusedChain.FilterOutput | dockerfile/flink-app/flink/resources/python/flink/functions/FilterFunction.py:25-35 | A filter hands on exactly the records that its function accepts, in order. |
| FusedChain.FlatMapOutput | dockerfile/flink-app/flink/resources/python/flink/functions/FlatMapFunction.py:25-41 | A flat map hands on, record by record, what its function collected and then what it returned, if anything. |
| FusedChain.OneRecord | dockerfile/flink-app/flink/resources/python/flink/functions/FlatMapFunction.py:36-41 | What becomes of a single record: a map hands on its result, a filter the record itself if it is accepted, a flat map what it collected and then what it returned. |
| FusedChain.StatelessFilter | dockerfile/flink-app/flink/resources/python/flink/functions/FilterFunction.py:28-30 | For a predicate without state, what the filter hands on holds each record as often as the input does if the predicate accepts it, and never otherwise. |
| FusedChain.Operator.ConfigureChain | dockerfile/flink-app/flink/resources/python/flink/functions/Function.py:45-51 | Wires every operator of the chain to the next one and the last one to the collector of the subtask. |
| FusedChain.Operator.Run | dockerfile/flink-app/flink/resources/python/flink/functions/FlatMapFunction.py:25-41 | A run of the first operator of a wired chain writes the output described by the rows above, values collected by a flat map before those returned, and then one end signal. |
| FusedChain.Operator.Execute | dockerfile/flink-app/flink/resources/python/flink/plan/Environment.py:249-250 | Run and close of a subtask: the output is followed by exactly two end signals. |
| ChainRuntime.ChainIsPushed | dockerfile/flink-app/flink/resources/python/flink/plan/Environment.py:284-286 | In an optimised plan the records of a head are what its chain pushes to the collector at run time. |
| GroupIteration.GroupIterator.Next | dockerfile/flink-app/flink/resources/python/flink/connection/Iterator.py:70-82 | Delivers the next value of the current group and nothing of the next one, and stops exactly at the end of the run of equal keys. |
| GroupIteration.GroupIterator.NextGroup | dockerfile/flink-app/flink/resources/python/flink/connection/Iterator.py:92-94 | Makes the run at the look-ahead record the current group without consuming anything. |
| GroupIteration.RunsConserve | dockerfile/flink-app/flink/resources/python/flink/connection/Iterator.py:48-97 | The groups concatenate to the input. |
| GroupIteration.RunsAreSeparated | dockerfile/flink-app/flink/resources/python/flink/connection/Iterator.py:48-97 | No group is empty and neighbours differ in key. |
| GroupIteration.RunLengthIsMaximal | dockerfile/flink-app/flink/resources/python/flink/connection/Iterator.py:84-87 | A group is a maximal run of equal keys. |
| GroupIteration.SameKeyIff | dockerfile/flink-app/flink/resources/python/flink/connection/Iterator.py:96-97 | Two records have equal keys if and only if they agree in every key field. |
| Reducers.RunAllReduce | dockerfile/flink-app/flink/resources/python/flink/functions/ReduceFunction.py:38-47 | Emits the left fold of a non-empty input and nothing for an empty one. |
| Reducers.RunGroupedReduce | dockerfile/flink-app/flink/resources/python/flink/functions/ReduceFunction.py:49-61 | Emits the left fold of each maximal run of equal keys, in order, and terminates. |
| Reducers.FoldInOrder | dockerfile/flink-app/flink/resources/python/flink/functions/ReduceFunction.py:43-46 | The fold takes the values in order: for texts and concatenation it is the texts one after the other. |
| Reducers.RunGroupedGroupReduce | dockerfile/flink-app/flink/resources/python/flink/functions/GroupReduceFunction.py:49-60 | For any number of iterations, and a reducer that reads as much or as little of each group as it likes, with state or without: each call gets the key of the first record that was not read yet and a beginning of what is left of its group; the driver ends exactly when nothing is left, and does so if every call reads something. |
| Reducers.OneCallPerGroupIff | dockerfile/flink-app/flink/resources/python/flink/functions/GroupReduceFunction.py:54-59 | In a run that used up its input there is one call per group with the whole group if and only if every call read its group to the end: the driver does not skip what is left. |
| Reducers.SeparatedCallsAreGroups | dockerfile/flink-app/flink/resources/python/flink/functions/GroupReduceFunction.py:54-59 | The calls are the groups if and only if none is empty and neighbours differ in key. |
| Reducers.CallsConserve | dockerfile/flink-app/flink/resources/python/flink/functions/GroupReduceFunction.py:54-59 | However little it reads at a time, what the calls read, followed by what was not read yet, is the input in order. |
| Reducers.StuckCalls | dockerfile/flink-app/flink/resources/python/flink/functions/GroupReduceFunction.py:54-59 | A reducer that reads nothing is called any number of times for the same group. |
| CoGroup.CoGroupIterator.Next | dockerfile/flink-app/flink/resources/python/flink/connection/Iterator.py:122-168 | For keys of any type and any comparison, the six-state step opens the groups of the key that is smaller field by field, in the order that the row on comparing keys spells out, never advances a side that remained, and reports the end exactly when both sides are used up. |
| CoGroup.LessIff | dockerfile/flink-app/flink/resources/python/flink/connection/Iterator.py:160-160 | A key is smaller than another if and only if, at the first position where they differ, it ends or its field is smaller, for any comparison of fields. |
| CoGroup.RunCoGroup | dockerfile/flink-app/flink/resources/python/flink/functions/CoGroupFunction.py:39-53 | Whatever the user function reads from either side, in any order, and however key fields compare, the run presents the merge of both sequences of groups, call by call, and terminates. |
| CoGroup.MergeConserves | dockerfile/flink-app/flink/resources/python/flink/connection/Iterator.py:122-168 | For arbitrary inputs, sorted or not, and any comparison, every value of each side is presented once, in input order. |
| CoGroup.CoGroupIsFullOuterMerge | dockerfile/flink-app/flink/resources/python/flink/connection/Iterator.py:155-168 | For key fields of any strictly ordered type and sorted inputs, keys increase strictly from call to call; a key on either side gets exactly one call with exactly the values of each side, none if the side lacks it; no other key gets a call. |
| CoGroup.OneFieldOuterMerge | dockerfile/flink-app/flink/resources/python/flink/connection/Iterator.py:155-168 | For one key field, in terms of the comparison of fields only: if neither input ever decreases, the key field increases strictly from call to call, each field on either side gets one call, with exactly the values that each side has for it, and no other field gets one. |
| CodecLaws.RoundTripIff | dockerfile/flink-app/flink/resources/python/flink/connection/Collector.py:62-65 | A value is read back as written, lists as tuples, whatever follows it and with exact consumption, if and only if it fits: arities 1 to 25, 64-bit numbers, blocks below 2^31 bytes, supported and dispatchable types. |
| WireFormat.ForeignValueIsRead | dockerfile/flink-app/flink/resources/python/flink/connection/Iterator.py:254-400 | A value of any type that a header can describe, tuples and registered types included, in the bytes that either side may write, with the tags spelled out, is read as that value, whatever follows it and with exact consumption. |
| WireFormat.ShortNumbersAreRead | dockerfile/flink-app/flink/resources/python/flink/connection/Iterator.py:356-384 | The types that only the other side writes, byte by byte: 32-bit integers in two's complement (20 FF FF FF FF is -1), single bytes and four-byte floats. |
| WireFormat.WrittenNumbers | dockerfile/flink-app/flink/resources/python/flink/connection/Collector.py:173-202 | The bytes written for nothing, truth values, integers and floats. |
| WireFormat.WrittenBytes | dockerfile/flink-app/flink/resources/python/flink/connection/Collector.py:188-191 | The bytes written for a byte array: tag, length, content. |
| WireFormat.WrittenText | dockerfile/flink-app/flink/resources/python/flink/connection/Collector.py:194-197 | The bytes written for a text. |
| WireFormat.WrittenObject | dockerfile/flink-app/flink/resources/python/flink/connection/Collector.py:152-160 | The bytes written for an object of the type registered as number k: the tag 126 - k, the length, and what its serializer gives. |
| WireFormat.WrittenTuple | dockerfile/flink-app/flink/resources/python/flink/connection/Collector.py:162-170 | The bytes written for a tuple or a list: the number of fields, all headers, then all fields. |
| WireFormat.RecordIsRead | dockerfile/flink-app/flink/resources/python/flink/connection/Iterator.py:192-217 | A record sent with the kind 3F, 3E or 3D in front is read as a single value, as keys and a value, or as two values, with its layout and with exact consumption, whatever types its values have. |
| WireFormat.ReadStream | dockerfile/flink-app/flink/resources/python/flink/connection/Iterator.py:187-220 | The iterator, on the bytes of any records of one layout, yields these records and consumes the bytes. |
| WireFormat.WrittenMessage | dockerfile/flink-app/flink/resources/python/flink/connection/Collector.py:83-105 | The bytes of an outgoing record: header and value with their length in front, or the number of keys, then each key and the value in that form. |
| CodecLaws.HeaderRoundTrip | dockerfile/flink-app/flink/resources/python/flink/connection/Collector.py:108-127 | A written type header is read back as the deserializer that mirrors the serializer. |
| CodecLaws.PayloadRoundTrip | dockerfile/flink-app/flink/resources/python/flink/connection/Collector.py:152-202 | A written payload is read back as the value, and no more than the payload is read. |
| CodecLaws.DispatchIff | dockerfile/flink-app/flink/resources/python/flink/plan/Environment.py:117-117 | Reading the tag of the registered type number k, counted from 0, leads back to it if and only if k < 92 or 126 <= k < 256; the tag of number 92 reads as a boolean. |
| CodecLaws.TagsUnambiguousIff | dockerfile/flink-app/flink/resources/python/flink/plan/Environment.py:117-117 | All tags of n registered types differ from each other, from arities and from built-in tags if and only if n <= 92. |
| Codec.Registry.RegisterType | dockerfile/flink-app/flink/resources/python/flink/plan/Environment.py:108-117 | Appends an entry; the tag of every entry is determined by its number. |
| RecordStream.HeaderSizeIsExact | dockerfile/flink-app/flink/resources/python/flink/connection/Iterator.py:349-350 | The header size computed for a deserializer is the length of the header it was read from, for every nesting. |
| RecordStream.CachedIsFresh | dockerfile/flink-app/flink/resources/python/flink/connection/Iterator.py:291-333 | Reading a record with a deserializer kept from an earlier record of the same layout gives the same record and the same rest as reading its headers. |
| RecordStream.CachedIsFreshIff | dockerfile/flink-app/flink/resources/python/flink/connection/Iterator.py:217-218 | Among the layouts that the Python serializers write, a kept deserializer gives the record and the rest that reading the headers gives if and only if it was kept from a record of the same layout. |
| RecordStream.RecordIterator.Next | dockerfile/flink-app/flink/resources/python/flink/connection/Iterator.py:187-220 | The first call reads the record with its headers, as `WireFormat.RecordIsRead` spells out, and fixes the deserializer; later calls skip the headers by size. |
| RecordStream.RecordIterator.ReadAll | dockerfile/flink-app/flink/resources/python/flink/connection/Iterator.py:187-220 | On a stream whose records all have one layout the iterator yields what reading every header would yield, and consumes the stream. |
| RecordStream.MixedLayoutsAreMisread | dockerfile/flink-app/flink/resources/python/flink/connection/Iterator.py:217-218 | Without a common layout the fast path goes wrong, on a concrete stream. |
| RecordOutput.RecordCollector.CollectAll | dockerfile/flink-app/flink/resources/python/flink/connection/Collector.py:44-51 | The collector, which keeps the serializers of its first record, writes what choosing serializers for every record would write, as long as the same ones would be chosen. |
| RecordOutput.RecordsSurvive | dockerfile/flink-app/flink/resources/python/flink/connection/Collector.py:74-105 | Records that fit and share their serializers reach the iterator of the next operation unchanged, in order and in one layout. |
| RecordOutput.FieldsReadBack | dockerfile/flink-app/flink/resources/python/flink/connection/Iterator.py:234-236 | A sequence of values written one after another, as the plan collector does, is read back value by value. |
| Packing.LengthRoundTripIff | dockerfile/flink-app/flink/resources/python/flink/connection/Collector.py:188-197 | A length written unsigned and read signed comes back if and only if it is below half the range; otherwise it comes back negative. |
| Packing.MostSignificantFirst | dockerfile/flink-app/flink/resources/python/flink/connection/Collector.py:105-105 | Numbers are packed most significant byte first. |
| Packing.SignedRoundTrip | dockerfile/flink-app/flink/resources/python/flink/connection/Collector.py:183-185 | Two's complement numbers come back. |
| Connection.BufferedWriter.Write | dockerfile/flink-app/flink/resources/python/flink/connection/Connection.py:92-102 | A message is refused exactly when it is larger than the buffer, is never split, and the pending size stays the sum of the pending messages; a frame is sent exactly when the message does not fit. |
| Connection.BufferedWriter.WriteBuffer | dockerfile/flink-app/flink/resources/python/flink/connection/Connection.py:104-110 | Sends the pending messages as one frame and leaves nothing pending. |
| Connection.BufferedWriter.SendEndSignal | dockerfile/flink-app/flink/resources/python/flink/connection/Connection.py:130-133 | Sends what is pending, if anything, and the end signal. |
| Connection.BufferedWriter.SendAll | dockerfile/flink-app/flink/resources/python/flink/connection/Connection.py:92-133 | A whole run: all bytes in order, whole messages, frames of 1 to capacity bytes, each closed only when the next message does not fit or at the end, fewer than 2T / capacity + 1 frames for T bytes, and no frame after the first of the two end signals. |
| Connection.FewFrames | dockerfile/flink-app/flink/resources/python/flink/connection/Connection.py:96-99 | Neighbouring frames that together exceed the buffer bound the number of frames. |
| Connection.SizeWordsAreDistinct | dockerfile/flink-app/flink/resources/python/flink/connection/Connection.py:26-29 | With a buffer below 2^31 bytes no size word is a control word, and the receiver reads the size back from it. |
| Connection.Socket.RecvAll | dockerfile/flink-app/flink/resources/python/flink/connection/Connection.py:37-49 | However the bytes arrive, exactly the next n bytes are returned and no more are taken. |
| Handshake.ReceivedIsPrefix | dockerfile/flink-app/flink/resources/python/flink/connection/Connection.py:104-110 | In every reachable state of every interleaving the consumer has a prefix of what was written, and everything once it has seen an end signal. |
| Handshake.BufferIsStable | dockerfile/flink-app/flink/resources/python/flink/connection/Connection.py:104-110 | The shared buffer never changes between the announcement of a frame and the end of its copying. |
| Handshake.NothingAfterEnd | dockerfile/flink-app/flink/resources/python/flink/connection/Connection.py:130-133 | After the first end signal no frame is announced and nothing more is received. |
| Handshake.FramesAreTheWriters | dockerfile/flink-app/flink/resources/python/flink/connection/Connection.py:92-110 | Under every interleaving the frames announced so far are, byte for byte, the first frames that the buffered writer sends for the same messages, and all of them once an end signal was sent. |
| Handshake.RunsAreFinite | dockerfile/flink-app/flink/resources/python/flink/connection/Connection.py:92-133 | Every run is finite, with a bound in the amount of data. |
| Handshake.NoDeadlock | dockerfile/flink-app/flink/resources/python/flink/connection/Connection.py:104-110 | A reachable state that is not done has a step. |
| Handshake.CompleteRunDelivers | dockerfile/flink-app/flink/resources/python/flink/connection/Connection.py:92-133 | A run that cannot be continued has delivered everything and both end signals. |
| SingleReader.BufferReader.Read | dockerfile/flink-app/flink/resources/python/flink/connection/Connection.py:112-119 | A read returns the next bytes of the stream if and only if they lie in the current buffer, and is an error otherwise. |
| TwinReader.Reader.Read | dockerfile/flink-app/flink/resources/python/flink/connection/Connection.py:159-164 | A read returns the next bytes of its group and leaves the other group alone, if and only if it stays inside the current buffer; past it, it silently returns only what the buffer has left. |
| TwinReader.Reader.HasNext | dockerfile/flink-app/flink/resources/python/flink/connection/Connection.py:178-179 | True exactly while the group has unread bytes. |
| TwinReader.Reader.ReadBuffer | dockerfile/flink-app/flink/resources/python/flink/connection/Connection.py:166-176 | A refill is requested only while the group has buffers left, and changes nothing of what either group has still to read. |
| TwinReader.Serve | dockerfile/flink-app/flink/resources/python/flink/connection/Connection.py:159-185 | For any interleaving of reads of both groups, what was returned for a group followed by its unread buffers is the stream of the group. |
| KeyRemap.Grouping.Finalize | dockerfile/flink-app/flink/resources/python/flink/plan/DataSet.py:853-903 | Each rewritten grouping key and sort field is a position of the key tuple at which the tuple of every record has the record's field of that number, or what the grouping or sorting function gives for the record; no position of the record is extracted twice, and the tuple has the positions in ascending order, then the grouping function, then the sorting functions. |
| KeyRemap.Grouping.FinalizeUnsorted | dockerfile/flink-app/flink/resources/python/flink/plan/DataSet.py:833-846 | The same without sorts: the key tuple has the fields, or the result of the function, in the order of the keys. |
| KeyRemap.RemappedKeyIsOriginal | dockerfile/flink-app/flink/resources/python/flink/plan/DataSet.py:888-896 | Grouping the pairs by the rewritten keys is grouping the records by the original ones. |
| KeyRemap.GroupedByFields | dockerfile/flink-app/flink/resources/python/flink/plan/DataSet.py:880-892 | For a grouping by positions the key of a pair has the fields of the record at these positions, in order, and two pairs have equal keys if and only if the records agree in all of these fields. |
| KeyRemap.GroupedByFunction | dockerfile/flink-app/flink/resources/python/flink/plan/DataSet.py:883-894 | For a grouping by a function the key of a pair is what the function gives for the record. |
| ZipWithIndex.ZipAll | dockerfile/flink-app/flink/resources/python/flink/plan/DataSet.py:632-658 | For any partitions, and counts arriving in any order at each subtask, the ids are 0, 1, ..., N - 1, by subtask and then by position: each element is paired with the number of elements before it. |
| ZipWithIndex.ZipWithIndexMapper.Run | dockerfile/flink-app/flink/resources/python/flink/plan/DataSet.py:641-655 | The offset of a subtask is the number of elements of the subtasks before it. |
| ZipWithIndex.NumberedIsBijection | dockerfile/flink-app/flink/resources/python/flink/plan/DataSet.py:632-635 | Each id below N belongs to exactly one element, ids increase, and the element at a position gets that position as its id. |
| ZipWithIndex.CountElements | dockerfile/flink-app/flink/resources/python/flink/plan/DataSet.py:624-629 | The count of a partition is its size. |
| Aggregation.AggregationFunction.Reduce | dockerfile/flink-app/flink/resources/python/flink/functions/Aggregation.py:33-54 | For columns of any type, addition and comparison, the result is the first tuple with each aggregated field replaced by the fold of the last aggregator registered for it, whatever the aggregators held before; an empty group is an error. |
| Aggregation.AggregationFunction.ReduceAll | dockerfile/flink-app/flink/resources/python/flink/functions/GroupReduceFunction.py:49-60 | No state leaks from one group to the next. |
| Aggregation.FoldIsExtremum | dockerfile/flink-app/flink/resources/python/flink/functions/Aggregation.py:74-97 | For any strict weak order of the values Min and Max are attained bounds of the column; Sum is its total. |
| Aggregation.ExtremumOfRecords | dockerfile/flink-app/flink/resources/python/flink/functions/Aggregation.py:41-97 | A field aggregated by Min or Max is that field of the first record of the group for which it is extreme. |
| Aggregation.SumInOrder | dockerfile/flink-app/flink/resources/python/flink/functions/Aggregation.py:74-79 | Sums are taken in order. |

## Left out

- Sockets, memory-mapped files, standard input, process start and error signalling: the other party is a
  state machine or an object that answers requests; a control word is sent and received as a whole.
- The Java side: sorting, shuffling, partitioning and what an operation other than map, filter and flat
  map does with its inputs (an arbitrary function in `PlanMeaning`). How outgoing messages become the
  records of the next operation is an assumption, `RecordOutput.Reframe`.
- Parallel instances: a data set is one sequence of records in `PlanMeaning`.
- User functions that share state across operators. In `PlanMeaning` they look up only broadcast
  variables that were registered for their own set.
- Broadcast variables at run time (`functions/Function.py`, `_receive_broadcast_variables`): the same
  header skipping as in `RecordStream`, over another channel.
- UTF-8, floating-point encodings and user-supplied codecs: inverse pairs (`CodecLaws.InverseCodecs`),
  with each class registered once and no inheritance between registered classes.
- RecordOutput.RecordCollector.Collect: what a kept serializer writes for a value of another kind is
  not modelled, as it depends on Python conversions; such a call is refused.
- A negative block length makes a read from the mapped buffer move backwards; it is an error in `Codec`.
- Floats with NaN are not ordered; the theorems about sorted inputs and about extrema do not hold for them.
- The four calls of a co-group are taken together: plans built while one is unfinished, or with one that is
  never finished, are not modelled.
- `reset`, `ListIterator`, `PureTCPConnection`, and a `GroupIterator` without keys.
- A second `_finalize` on one grouping, groupings that mix positions and functions, and negative positions.
- Join: its key maps are built as those of a co-group, and its operation is then listed exactly.
- Parallelism, names given by the user, CSV and text formatting, version checks.
- The Scala, Java and shell parts of the repository.
