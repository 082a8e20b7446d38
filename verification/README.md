# Verification model of evo

A Dafny 4.11 model of the hard parts of evo, an agent runtime in Rust, and proofs about it. `dafny verify
dfyconfig.toml` checks the whole project.

The model covers five connected components and three smaller ones.

* **Tool schemas and arguments** (`JsonSchema`, `StrictSchema`, `StrictSubset`, `SchemaRepair`, `SchemaReadings`,
  `StrictRoundTrip`, `SchemaGaps`). One side rewrites a tool's schema so that a model must send every key; the other
  drops the added nulls, coerces and validates. The meaning of a schema is a recursive `Valid(schema, value)` over JSON
  Schema Draft 7, in which a `$ref`, a pattern and any other keyword may mean anything.
* **Durable stream frames** (`Frames`, `FrameRoundTrip`, `JsonExtension`, and the checkpoint store in `Progress`
  and `ProgressStreams`). An encoder turns a live assistant stream into frames, and a reducer replays any committed
  prefix. What a stream means is given without either of them, by `ViewOf` and `Content`.
* **The agent loop** (`AgentEvents`, `ToolBatch`, `ProviderCache`, `RequestLog`, `AgentLoop`). Provider answers,
  hooks, tool completion order, queues and cancellation are nondeterministic; every contract holds for all of them.
* **The bounded event stream** (`EventStream`). Producer, consumer and cancellation as a machine of atomic steps.
* **Nested tool programs** (`ToolProgram`, `ProgramHistory`, `UpdateGate`, `ResultPaging`, `ToolResults`, `Accounting`,
  `AccountingOrder`, `AccountingTree`). Permits shared across an invocation tree, shutdown, a lock-free gate, result
  quotas, UTF-8 paging and checked accounting.
* **JSON repair** (`JsonRepair`, `JsonReading`), **the hand-off of a foreground agent** (`HandOff`, `AgentRegistry`)
  and **the output of a child run** (`ChildOutput`).

Sequential code is modelled by methods and classes that are proved equal to recursive specifications, about which the
properties are then proved. Concurrent code is modelled as a state machine: `Enabled` and `Apply` give the atomic
steps, `Legal` and `After` whole runs, and classes such as `EventStream.Stream` replay the source's operations with
any steps of the other tasks between two awaits.

What a method and its specification share is tied down by lemmas that do not mention it: what a scalar is read as
(`SchemaReadings`), which schemas strict mode takes (`StrictSubset`), what it is for a value to extend another
(`JsonExtension`), what a JSON text says (`JsonReading`), what a stream of checkpoints is (`ProgressStreams`), what the
history of an invocation tree says of its state (`ProgramHistory`), and what the world had in store for a tool call
(`ToolBatch.CameTo`).

What cannot be seen is a parameter: the streaming JSON parser and the serializer (`Frames.Codec`, of which only
"parsing what was serialized gives it back" is used), Rust's text conversions (`SchemaRepair.TextRules`), the message
converters (`ProviderCache.Config`), the iteration order of a set (`Accounting.Order`).

## Where the code and its documentation differ

* `validate_tool_arguments` promises to tolerate sloppy arguments, and changes or refuses valid ones of some schemas.
  With `patternProperties` it coerces every undeclared key by `additionalProperties`: under
  `{"type":"object","patternProperties":{"^x":{"type":"string"}},"additionalProperties":{"type":"integer"}}` the valid
  `{"x1":"5"}` is refused (`SchemaGaps.PatternGap`, and `SchemaGaps.StrictPatternGap` for a strict call). With `$ref`, a
  sub-schema is compiled by itself, where the reference may not resolve: for a property
  `{"anyOf":[{"$ref":"#/definitions/S"},{"type":"null"}]}` with `S` a string, the valid `""` becomes null
  (`SchemaGaps.ReferenceGap`); and keywords beside a `$ref`, which validation ignores, coerce
  (`SchemaGaps.NeighbourGap`). `SchemaRepair.ValidateIsExact` gives the condition under which valid arguments pass
  unchanged; `SchemaRepair.PlainIsExact` says that it always holds without these two keywords.
* `strict_schema.rs` replaces `required` of an object node by its property names. If `required` named more than that,
  a strict call can be refused by the original schema: `StrictRoundTrip.RoundTripIff` gives the exact condition. An
  unstructured `anyOf` variant keeps its `required`, and a null it asked for may be dropped. Calls survive exactly when
  some variant accepts every set of keys that repair can leave (`StrictRoundTrip.VariantsIff`); for variants that do
  not close the object, when some variant accepts the names that repair never drops
  (`StrictRoundTrip.OpenVariantsIff`). `StrictRoundTrip.VariantGap` is an example where none does. The same holds of
  `minProperties`, which strict mode lets pass: with
  `{"type":"object","properties":{"a":{"type":"string"}},"minProperties":1}` the call `{"a":null}` is repaired to `{}`
  and refused; calls survive exactly when it is at most the number of names that repair never drops
  (`StrictRoundTrip.MinPropertiesIff`). And a null may be kept because its property does not compile by itself
  (`StrictRoundTrip.NullSurvivesIff`, `SchemaGaps.OwnNullGap`).
* `lifetime` in `agent_tool.rs` promises that a released run ends only with its session. Its old call stops it in some
  run exactly when, at the release, the run had been told to stop or the watcher had decided to
  (`HandOff.ReleasedRunStopsIff`); never when the call's signal and scope had not ended
  (`HandOff.UnsignalledRunGoesOn`). `HandOff.SignalledRunMayStop` is a reachable race in which it does.
* The report of `tool_program_accounting.rs` can depend on completion order. No order overflows on the way exactly when
  in every field the positive counts together fit an `i64` and so do the negative ones
  (`AccountingOrder.AnyOrderFitsIff`). Where some order reports its usage, all orders report the same exactly then
  (`AccountingOrder.MergeIgnoresOrderIff`); where the total itself does not fit, all orders report the same too
  (`AccountingOrder.MergeIgnoresOrder`); and so they always do when nothing is negative
  (`AccountingOrder.NonNegativeMergeIgnoresOrder`). `AccountingOrder.NegativeCountsOrder` is an example where they differ.
* `close_truncated_json` closes a text unless it ends in a pending backslash (`JsonRepair.CloseScan`,
  `JsonRepair.CloseNeedsNoBackslash`); after `repair_json` it never does.

## Model

| member | source | states |
|---|---|---|
| StrictRoundTrip.StrictCallRoundTrip | crates/evo-ai/src/schema.rs:389-417 | Main result: whatever the strict schema accepts is, once its optional nulls are dropped, valid for the original schema; and it is exactly what `validate_tool_arguments` returns: always if the schema is plain (no `$ref` and no `patternProperties` at any depth), and otherwise, unless its keywords undo each other, if and only if coercion is not disturbed. Any keywords, `anyOf` variants and references are admitted under the conditions that `RoundTripIff`, `KeysIff` and `NullSurvivesIff` show to be exact |
| StrictRoundTrip.RoundTripIff | crates/evo-ai/src/strict_schema.rs:144-181 | For every value the strict schema accepts, the repaired value is valid for the original schema if and only if the original's `required` names only declared properties (the transform overwrites it) and the keywords outside this model accept the repaired value |
| StrictRoundTrip.RequiredSurvivesIff | crates/evo-ai/src/strict_schema.rs:175-181 | The same condition for the `required` keyword alone |
| StrictRoundTrip.NullSurvivesIff | crates/evo-ai/src/schema.rs:330-374 | What is sent for an optional property that does not allow null is dropped or valid, if and only if the property's own validator, which a `$ref` may keep from compiling, takes null only where null is valid |
| StrictRoundTrip.KeysIff | crates/evo-ai/src/strict_schema.rs:107-181 | The same question for all that looks at the keys of an object, `anyOf` variants and any keyword outside this model: all accepted calls survive repair if and only if every set of keys repair can leave is accepted |
| StrictRoundTrip.MinPropertiesIff | crates/evo-ai/src/strict_schema.rs:15-32 | For `minProperties`, which strict mode lets pass: all accepted calls survive if and only if it is at most the number of kept names |
| StrictRoundTrip.VariantsIff | crates/evo-ai/src/strict_schema.rs:107-118 | For a compiling object node with flat `anyOf` variants, which is supported otherwise: all accepted calls survive repair if and only if, for every set of keys repair can leave (all the kept names, and any of those a call can fill), some variant accepts it |
| StrictRoundTrip.OpenVariantsIff | crates/evo-ai/src/strict_schema.rs:107-118 | When no variant closes the object and some call is accepted: all accepted calls survive repair if and only if some variant accepts the kept names alone; a variant that only says `required` does so when it names kept ones only |
| StrictRoundTrip.UncoveredFails | crates/evo-ai/src/strict_schema.rs:107-118 | The failing call, for every set of keys that can be left and is not accepted |
| StrictRoundTrip.RepairedKeys | crates/evo-ai/src/schema.rs:309-363 | After repair an object has all its kept names, and besides them only names a call can fill |
| StrictRoundTrip.KeyAfterRepair | crates/evo-ai/src/schema.rs:330-361 | Of the nulls a model sends, exactly those under names that are not kept are dropped; kept are required names, those whose own validator takes null, and those under which null is never sent |
| StrictRoundTrip.FlatSeesKeys | crates/evo-ai/src/strict_schema.rs:65-85 | Of an object a flat variant sees only the keys |
| StrictRoundTrip.AllButRequired | crates/evo-ai/src/schema.rs:309-363 | Every other modelled keyword survives the two rewrites, at any depth |
| StrictRoundTrip.NodeRoundTrip | crates/evo-ai/src/schema.rs:309-363 | The round trip at one node of the supported fragment |
| StrictRoundTrip.PropertyRoundTrip | crates/evo-ai/src/strict_schema.rs:161-174 | What the nullable form of an optional property accepts is either a null that repair drops or a value of the property |
| StrictRoundTrip.StrictObjectKeys | crates/evo-ai/src/strict_schema.rs:160-181 | A value of a strict object node has exactly the declared keys |
| StrictRoundTrip.VariantsRoundTrip | crates/evo-ai/src/strict_schema.rs:107-118 | An `anyOf` variant that accepted the sent value accepts the repaired one |
| StrictRoundTrip.FlatSeesShapeOnly | crates/evo-ai/src/strict_schema.rs:65-85 | An unstructured variant cannot tell the sent value from the repaired one |
| StrictRoundTrip.VariantGap | crates/evo-ai/src/strict_schema.rs:107-118 | An example of a schema that misses that condition: the null of a property that only a variant requires is accepted, dropped, and the call refused by the original schema, for every such property schema |
| StrictSchema.MakeStrictJsonSchema | crates/evo-ai/src/strict_schema.rs:87-94 | The in-place rewrite of the root computes the strict schema of the specification, or refuses exactly the schemas it refuses |
| StrictSchema.MakeStrictNode | crates/evo-ai/src/strict_schema.rs:96-181 | The loops over variants, items and properties compute the recursive specification, errors included |
| StrictSchema.MakeStrictVariants | crates/evo-ai/src/strict_schema.rs:107-118 | The loop over variants: refused exactly for a structured or refused variant |
| StrictSchema.MakeStrictProperties | crates/evo-ai/src/strict_schema.rs:159-174 | The loop over properties: refused exactly for a refused property |
| StrictSchema.MakeStrictNullable | crates/evo-ai/src/strict_schema.rs:165-173 | The `anyOf` wrapper of an optional property is itself a strict node |
| StrictSchema.StrictNullableIsStrictNode | crates/evo-ai/src/strict_schema.rs:165-173 | Making the nullable wrapper strict rewrites only the property inside it |
| StrictSchema.StrictPropertyCases | crates/evo-ai/src/strict_schema.rs:162-174 | Which properties are wrapped: the optional ones that do not allow null |
| StrictSchema.StrictCloses | crates/evo-ai/src/strict_schema.rs:128-181 | Every object node of the result, at any depth, requires all its properties and allows no others |
| StrictSchema.StrictIdempotent | crates/evo-ai/src/strict_schema.rs:87-181 | The transform accepts its own result and leaves it unchanged |
| StrictSchema.StrictUnstructured | crates/evo-ai/src/strict_schema.rs:65-85 | A node without structure is left as it is |
| StrictSubset.AcceptedIff | crates/evo-ai/src/strict_schema.rs:15-181 | A schema is accepted if and only if every node the transform visits can be expressed in strict mode; which nodes can is said keyword by keyword, without the transform |
| StrictSubset.StrictRewrites | crates/evo-ai/src/strict_schema.rs:96-181 | Of a node only `required`, `additionalProperties` and the children are rewritten, the first two at object nodes only; the same children are there |
| StrictSubset.AllowsNullIff | crates/evo-ai/src/strict_schema.rs:38-63 | A property counts as taking null if and only if it, or an `anyOf` variant of it at any depth, names null as a type, its constant or a value |
| SchemaRepair.NormalizeOptionalNulls | crates/evo-ai/src/schema.rs:309-363 | The in-place removal of optional nulls computes the recursive specification |
| SchemaRepair.CoerceWithJsonSchema | crates/evo-ai/src/schema.rs:259-307 | Coercion by `allOf`, unions, types, properties and items, in the source's order |
| SchemaRepair.CoerceToDeclaredType | crates/evo-ai/src/schema.rs:270-290 | The loop over the declared types computes `CoerceDeclared`; what that makes of a scalar, for one type and for several, is `SchemaReadings.ScalarArgument` |
| SchemaReadings.ScalarArgument | crates/evo-ai/src/schema.rs:99-163 | Main result on coercion, for one scalar argument and any list of types: sent back as it is if it is of a listed type; else as the first type with a reading reads it; refused if no type reads it. Readings are a table, `ReadsAs`, given without the functions that coerce |
| SchemaReadings.ReadingFits | crates/evo-ai/src/schema.rs:99-163 | A reading is of the type that was asked for and not the value itself, and there is only one |
| SchemaReadings.BooleanArgument | crates/evo-ai/src/schema.rs:133-148 | Where a boolean is asked for, true, "true" and 1 give true, and false, "false", 0 and null give false; everything else is refused |
| SchemaReadings.StringArgument | crates/evo-ai/src/schema.rs:149-154 | Where a string is asked for, null gives the empty one, and booleans and numbers give their text |
| SchemaReadings.NumberArgument | crates/evo-ai/src/schema.rs:101-132 | Where a number or integer is asked for, null and false give 0, true gives 1, and a string gives what it parses to, or is refused |
| SchemaReadings.NullArgument | crates/evo-ai/src/schema.rs:155-160 | Where null is asked for, exactly the empty string, 0 and false give it |
| SchemaReadings.OptionalArgument | crates/evo-ai/src/schema.rs:330-361 | An optional argument is answered the same, but that a null its types refuse is dropped |
| SchemaReadings.DroppedIff | crates/evo-ai/src/schema.rs:330-374 | Of an object exactly those nulls are dropped that stand under a declared name, not required and not a `$ref`, whose own validator is there and rejects null |
| SchemaReadings.NoValidatorTakesNothing | crates/evo-ai/src/schema.rs:231-257 | A union changes nothing if none of its members has a validator of its own |
| SchemaRepair.CoerceWithUnionSchema | crates/evo-ai/src/schema.rs:231-257 | A value some variant accepts is kept; else the first variant it can be coerced to |
| SchemaRepair.ApplySchemaObjectCoercion | crates/evo-ai/src/schema.rs:171-201 | Declared properties and additional ones, each by its own schema |
| SchemaRepair.CoerceDeclaredFields | crates/evo-ai/src/schema.rs:171-186 | The first loop coerces exactly the declared properties |
| SchemaRepair.ApplySchemaArrayCoercion | crates/evo-ai/src/schema.rs:203-229 | Items by one schema or by position |
| SchemaRepair.ValidateToolArguments | crates/evo-ai/src/schema.rs:389-417 | Repair, coerce, then validate: the result, or refusal |
| SchemaRepair.CoerceKeepsValid | crates/evo-ai/src/schema.rs:259-307 | Coercion is the identity on every valid value that nothing in the schema disturbs: no keyword beside a `$ref` changes it, no undeclared key that matches a pattern is changed by the additional schema, and of each union some member takes it when compiled by itself or none takes what it would make of it |
| SchemaRepair.CoerceKeepsValidIff | crates/evo-ai/src/schema.rs:259-307 | Unless the schema's keywords undo each other, a valid value is left alone only if it is undisturbed |
| SchemaRepair.UnionKeepsIff | crates/evo-ai/src/schema.rs:231-257 | A union leaves any value alone if and only if some member's own validator takes it, or no member's takes what that member would coerce it to |
| SchemaRepair.PlainUndisturbed | crates/evo-ai/src/schema.rs:259-307 | In a schema without `$ref` and `patternProperties` nothing disturbs a valid value |
| SchemaRepair.NormalizeKeepsValidIff | crates/evo-ai/src/schema.rs:309-374 | Dropping optional nulls leaves a valid value as it is if and only if no null is dropped by a keyword beside a `$ref`, or because a property with references rejects null when compiled by itself |
| SchemaRepair.ValidateIsExact | crates/evo-ai/src/schema.rs:389-417 | What is returned is valid. Valid arguments are returned unchanged if they are spared and undisturbed; and, unless the schema's keywords undo each other, only then |
| SchemaRepair.PlainIsExact | crates/evo-ai/src/schema.rs:389-417 | So for such a schema all valid arguments are returned unchanged |
| SchemaRepair.CoerceKeepsKeys | crates/evo-ai/src/schema.rs:259-307 | Coercion changes scalars only: arrays keep their lengths and objects their keys, at any depth |
| SchemaRepair.NormalizeSameKeys | crates/evo-ai/src/schema.rs:309-363 | Dropping nulls changes keys only; so coercion never restores what was dropped |
| SchemaGaps.PatternGap | crates/evo-ai/src/schema.rs:187-199 | Valid arguments that are refused: a numeric string under a name that a pattern allows strings for, and the additional schema makes a number, for any pattern, name and such string |
| SchemaGaps.StrictPatternGap | crates/evo-ai/src/strict_schema.rs:130-143 | The same below a node whose `additionalProperties` the strict transform does not look at: a call the strict form accepts and the repair refuses |
| SchemaGaps.ReferenceGap | crates/evo-ai/src/schema.rs:66-84 | Valid arguments that are changed: an empty string given by a `$ref` that does not compile by itself, in a union with null, becomes null |
| SchemaGaps.NeighbourGap | crates/evo-ai/src/schema.rs:259-290 | Valid arguments that are spoiled: a keyword beside a `$ref`, which validation ignores, coerces |
| SchemaGaps.OwnNullGap | crates/evo-ai/src/schema.rs:330-374 | A null the strict form accepts, that repair keeps because the property does not compile by itself, and the original refuses |
| SchemaGaps.LaterKeywordUndoes | crates/evo-ai/src/schema.rs:259-290 | An example of keywords that undo each other, which is why the converse excludes them |
| FrameRoundTrip.RoundTrip | crates/evo-ai/src/frames.rs:272-853 | Main result, for every event sequence, interleaved and cut anywhere: it keeps the stream contract if and only if encoder and reducer both accept it, and then the frames replay to the blocks of the stream |
| FrameRoundTrip.OpenTextIsLonger | crates/evo-ai/src/frames.rs:523-566 | An open text or thinking block replays to the longer of its start snapshot and its deltas |
| FrameRoundTrip.CaughtUpAtSomeDelta | crates/evo-ai/src/frames.rs:392-463 | The encoder trusts raw tool-call JSON only after some prefix of it extended the start snapshot |
| FrameRoundTrip.CaughtUpStays | crates/evo-ai/src/frames.rs:392-463 | Once trusted, the replayed arguments never fall back to the snapshot |
| FrameRoundTrip.CheckpointExtendsSnapshot | crates/evo-ai/src/frames.rs:420-463 | A checkpoint carries the whole raw JSON so far, and on every path the start snapshot has, its arguments have the same thing, perhaps longer (`JsonExtension.Extends`) |
| FrameRoundTrip.OpenCallReplays | crates/evo-ai/src/frames.rs:392-463 | An open tool call replays to its raw JSON so far once some prefix of it has reached the start snapshot, and to the snapshot before; the test is `Extends`, by paths |
| FrameRoundTrip.CaughtUpIff | crates/evo-ai/src/frames.rs:420-463 | The encoder has caught up if and only if the snapshot is what an empty text parses to, or some prefix of the deltas parses to something that extends it |
| FrameRoundTrip.CheckpointIff | crates/evo-ai/src/frames.rs:420-463 | A checkpoint goes out exactly at the first delta with which the raw JSON extends the snapshot |
| FrameRoundTrip.OpenCallKeepsSnapshot | crates/evo-ai/src/frames.rs:420-463 | When every further delta only extends what was parsed before, every string, item and field of the start snapshot is still there in what an open call replays to, perhaps longer |
| FrameRoundTrip.ReplayedMessage | crates/evo-ai/src/frames.rs:199-207 | A replayed message keeps the identity of the one that started the stream, is pending without error, and has one content for each block |
| JsonExtension.PrefixIff | crates/evo-ai/src/frames.rs:219-240 | The prefix test is extension: everything found along a path in the first value is found there in the second, strings and arrays perhaps longer, other scalars the same |
| JsonExtension.PrefixOfString | crates/evo-ai/src/frames.rs:219-240 | Of a string, exactly the strings that go on from it |
| JsonExtension.PrefixOfArray | crates/evo-ai/src/frames.rs:219-240 | Of an array, exactly the arrays with extended items and then perhaps more |
| FrameRoundTrip.ReduceIsPrefixClosed | crates/evo-ai/src/frames.rs:649-853 | Any prefix of an accepted frame log is accepted |
| FrameRoundTrip.PipelineFollows | crates/evo-ai/src/frames.rs:272-482 | After any prefix, encoder offsets and catch-up buffer and the reducer's raw buffer are those of the stream read so far |
| FrameRoundTrip.TextDeltaSimulates | crates/evo-ai/src/frames.rs:523-566 | A text delta reaches the reducer without the part the snapshot covered |
| FrameRoundTrip.CallDeltaSimulates | crates/evo-ai/src/frames.rs:392-463 | A tool-call delta is withheld, checkpointed or passed on, and the two sides agree which |
| FrameRoundTrip.EndSimulates | crates/evo-ai/src/frames.rs:517-522 | An end frame replaces the block by its end payload |
| FrameRoundTrip.StartSimulates | crates/evo-ai/src/frames.rs:484-497 | A block starts at the next index on both sides |
| FrameRoundTrip.FeedRejects | crates/evo-ai/src/frames.rs:272-482 | An event that breaks the contract of `types.rs:905-914` is refused by one side |
| FrameRoundTrip.JsonPrefixReflexive | crates/evo-ai/src/frames.rs:219-240 | The prefix relation on JSON values is reflexive |
| FrameRoundTrip.JsonPrefixTransitive | crates/evo-ai/src/frames.rs:219-240 | and transitive |
| FrameRoundTrip.JsonPrefixAntisymmetric | crates/evo-ai/src/frames.rs:219-240 | and antisymmetric: a partial order |
| Frames.Encoder.Next | crates/evo-ai/src/frames.rs:272-482 | The encoder's updates of its fields are one step of the specification; an error changes nothing. What such a step lets out for a tool call is `FrameRoundTrip.CheckpointIff` |
| Frames.ReduceFrames | crates/evo-ai/src/frames.rs:649-853 | The reducer's loop over message and states computes the specification, every error included |
| Frames.FinishCalls | crates/evo-ai/src/frames.rs:777-853 | Raw JSON of open tool calls is parsed at the end |
| Frames.ReplayErrorStays | crates/evo-ai/src/frames.rs:649-700 | A prefix of an accepted log has no error |
| AgentLoop.RunAgentLoop | crates/evo-agent/src/agent_loop.rs:83-119 | A run from prompts: events follow AgentStart (TurnStart ... TurnEnd)+ AgentEnd; the messages that ended are the returned messages and the final payload; every call is answered unless the run was aborted; there is one request for each turn that asked the provider, made just before its assistant message, for the transcript of that moment; and the log of transcripts starts with the given context and the prompts |
| AgentLoop.RunAgentLoopContinue | crates/evo-agent/src/agent_loop.rs:132-162 | The same from an existing context; refused exactly when it is empty or ends with an assistant message |
| AgentLoop.RunAgentLoopFromAssistant | crates/evo-agent/src/agent_loop.rs:178-213 | The same from an assistant whose tools have not run, whose turn makes no request; refused exactly when the last message is not an assistant |
| AgentLoop.RunLoop | crates/evo-agent/src/agent_loop.rs:228-503 | The nested loops keep all of that over every run; the steering queue is looked at before the first turn, and everything the steering and follow-up queues gave is among the run's messages, in order |
| AgentLoop.DriveTurns | crates/evo-agent/src/agent_loop.rs:247-484 | The inner loop keeps all of that; it ends by itself only after a turn without a result that asks for more, with the steering queue just found empty |
| AgentLoop.RequestSeesTranscript | crates/evo-agent/src/agent_loop.rs:663-699 | Main result, over every run: request number `i` was sent the full conversion of the transcript of its turn, which is the last known one (the start, a hook's replacement, or one with stray partial messages) and exactly the new messages between then and the request |
| AgentLoop.RequestSeesRun | crates/evo-agent/src/agent_loop.rs:663-699 | While no hook has replaced the context and no stream has started twice, that is the starting context and all new messages so far; and so is the final context |
| RequestLog.RequestMadeFor | crates/evo-agent/src/agent_loop.rs:663-699 | Every request of a well-kept log was made for the transcript that its anchor and the messages give |
| RequestLog.LoggedMore | crates/evo-agent/src/agent_loop.rs:269-284 | Messages that join the context and the new messages keep the log: what earlier requests were made for is unchanged |
| RequestLog.LoggedAsk | crates/evo-agent/src/agent_loop.rs:663-726 | A request for the transcript as it is keeps the log |
| RequestLog.LoggedReplace | crates/evo-agent/src/agent_loop.rs:355-371 | A hook that replaces the context keeps the log, with a new anchor |
| RequestLog.LoggedRestart | crates/evo-agent/src/agent_loop.rs:755-769 | A stream that leaves stray partial messages keeps the log, with a new anchor |
| AgentLoop.TranscriptAgrees | crates/evo-agent/src/agent.rs:90-150 | Main result: folding a returned run's trace gives the old transcript and the returned messages, nothing streaming, and no call pending at any turn's end |
| AgentLoop.RunTurn | crates/evo-agent/src/agent_loop.rs:252-484 | One pass of the inner loop keeps all of that |
| AgentLoop.TurnBody | crates/evo-agent/src/agent_loop.rs:260-484 | Injections, response, tools, hooks, steering: what is drained is handed on or already among the messages |
| AgentLoop.KeptWithin | crates/evo-agent/src/agent_loop.rs:421-484 | No drained message is lost between turns |
| AgentLoop.BeginTurn | crates/evo-agent/src/agent_loop.rs:252-258 | Every turn but the first starts with its event |
| AgentLoop.ToolTurn | crates/evo-agent/src/agent_loop.rs:326-484 | A turn closes with its results right after its assistant message; a turn that continues has answered every call |
| AgentLoop.StopTurn | crates/evo-agent/src/agent_loop.rs:305-324 | A failed or aborted response ends the run without running a tool |
| AgentLoop.RunTools | crates/evo-agent/src/agent_loop.rs:326-371 | Another turn is asked for if and only if some result does not terminate; results are what their calls came to in the world's plan; they join new messages and context in source order, the hook may then replace the context, and the log says whether it did; all calls are answered unless cancelled |
| AgentLoop.AddResults | crates/evo-agent/src/agent_loop.rs:348-353 | The results of a batch join context, new messages and trace, and keep the log |
| AgentLoop.ToolsAndEnd | crates/evo-agent/src/agent_loop.rs:326-399 | A turn's tools, hooks and end event: one request for every turn that ended and made one, and answers for every call unless cancelled |
| AgentLoop.AfterTools | crates/evo-agent/src/agent_loop.rs:401-484 | After a turn a hook stops the run, a cancelled batch, and only one, aborts it with what was queued, or the queue is handed on |
| AgentLoop.CloseResponse | crates/evo-agent/src/agent_loop.rs:373-381 | The end event of a turn accounts for its request: made when exactly the messages before its assistant message were there |
| AgentLoop.WrapUpAborted | crates/evo-agent/src/agent_loop.rs:421-484 | A cancelled batch ends with the queued steering and a new aborted assistant |
| AgentLoop.Inject | crates/evo-agent/src/agent_loop.rs:260-285 | Queued messages go in before the next request, and the cache is dropped |
| AgentLoop.Respond | crates/evo-agent/src/agent_loop.rs:287-303 | A streamed response was asked for with the full conversion of the context of that moment, which the log records; context and new messages grow by the response, after any stray partial messages in the context |
| AgentLoop.AskTurn | crates/evo-agent/src/agent_loop.rs:260-303 | A turn up to its assistant message: the queued messages first, then the message handed in or a new response, with one more request exactly in the second case |
| AgentLoop.AskedIsLogged | crates/evo-agent/src/agent_loop.rs:651-726 | The log with the request and any stray messages of a stream describes the transcript after it |
| AgentLoop.EndRun | crates/evo-agent/src/agent_loop.rs:486-503 | The last event carries the new messages |
| AgentLoop.StreamAssistantResponse | crates/evo-agent/src/agent_loop.rs:651-880 | The request is the full conversion of the context; the final message takes the place of the last partial one, or is appended; one start event for each partial message or, without any, for the final one; one end event |
| AgentLoop.FoldStream | crates/evo-agent/src/agent_loop.rs:732-880 | The context ends with the final message once, after the partial messages of all starts but the last; starts and start events agree, for any sequence of provider events |
| AgentLoop.NextRequest | crates/evo-agent/src/agent_loop.rs:663-726 | What is sent equals the full conversion of the context, cached or not |
| AgentLoop.ExecuteToolCalls | crates/evo-agent/src/agent_loop.rs:966-991 | Truncated and ambiguous batches only produce errors and run nothing; any other batch reports what each of its calls came to, for a prefix of them in source order, and every result has its end event; the batch ends the run's turns only if all results say so |
| AgentLoop.ReplaceContext | crates/evo-agent/src/agent_loop.rs:355-399 | A replaced context drops the cache |
| AgentLoop.TurnPairs | crates/evo-agent/src/agent_loop.rs:373-381 | At every turn end of a run the results come right after the turn's assistant message and answer its first calls, all of them when the run was not aborted; and the turn had a cause: it was the first, the turn before it asked for it, messages went in, or it wraps up a cancelled batch |
| AgentLoop.RunGoesOn | crates/evo-agent/src/agent_loop.rs:346-346 | Main result, over every run that ended: the end of a turn whose results ask for more is followed by another turn, unless a hook stopped the run just then or it ran out of fuel |
| AgentLoop.CompletedIsQuiet | crates/evo-agent/src/agent_loop.rs:486-503 | A run that no hook stopped is complete only when no result of its last turn asked for more, and steering and then follow-up queue were found empty after it |
| AgentLoop.OneTurn | crates/evo-agent/src/agent_loop.rs:252-484 | A turn has a cause: it is the first, a result asked for it, or queued messages did; and it leaves the run ended or under way, with the queue just looked at |
| AgentLoop.LookForFollowUps | crates/evo-agent/src/agent_loop.rs:486-492 | The follow-up queue is looked at exactly when nothing else asks for another turn; if it is empty too, nothing is left to do |
| AgentLoop.ToolCallsSplit | crates/evo-agent/src/agent_loop.rs:326-338 | The calls of a message are those of its blocks, in order (`ToolCallsOfOne` says what one block gives) |
| AgentLoop.PairedTurnEnd | crates/evo-agent/src/agent_loop.rs:355-381 | A turn that closes with its results keeps the pairing of the whole trace |
| ToolBatch.ExecuteParallel | crates/evo-agent/src/agent_loop.rs:1061-1180 | Main result, for every interleaving: no index is lost; the valid calls start in source order; end events of executed calls follow completion order, each call ends exactly once, with its result; results are, in source order, what their own calls came to in the world's plan (`CameTo`), for a prefix of the calls and all of them when not cancelled; the batch terminates exactly if all results do |
| ToolBatch.PrepareAll | crates/evo-agent/src/agent_loop.rs:1078-1144 | Preparation in source order while earlier calls run and complete |
| ToolBatch.PrepareNext | crates/evo-agent/src/agent_loop.rs:1078-1098 | The next call starts, is prepared, and fails, settles or runs |
| ToolBatch.Drive | crates/evo-agent/src/agent_loop.rs:1186-1200 | Any number of running calls complete in any order while something else is awaited |
| ToolBatch.Deliver | crates/evo-agent/src/agent_loop.rs:1156-1162 | One end event is delivered and its slot filled |
| ToolBatch.DrainAll | crates/evo-agent/src/agent_loop.rs:1146-1163 | The rest complete; nothing is left running or queued |
| ToolBatch.SettleResults | crates/evo-agent/src/agent_loop.rs:1165-1180 | So every slot is filled when the results are collected, and each message carries its own call's result and error flag |
| ToolBatch.AllCame | crates/evo-agent/src/agent_loop.rs:1165-1180 | The collected results are what their calls came to |
| ToolBatch.EndsAnswer | crates/evo-agent/src/agent_loop.rs:1156-1162 | Each delivered end event carries the result of the call that it ended |
| ToolBatch.SameTermination | crates/evo-agent/src/agent_loop.rs:1631-1642 | A batch terminates exactly when it has results and all of them terminate |
| ToolBatch.CompleteOnePlanned | crates/evo-agent/src/agent_loop.rs:1191-1198 | A completed call has what its tool and hooks came to |
| ToolBatch.CompleteOneKeeps | crates/evo-agent/src/agent_loop.rs:1191-1198 | A completion moves a call between places and keeps every index in exactly one |
| ToolBatch.FinalizeKeeps | crates/evo-agent/src/agent_loop.rs:1108-1114 | So does the end of a call |
| ToolBatch.PopKeeps | crates/evo-agent/src/agent_loop.rs:1148-1155 | So does taking a completed call to deliver it |
| ToolBatch.StartOneKeeps | crates/evo-agent/src/agent_loop.rs:1078-1096 | So does starting one |
| ToolBatch.ExecuteSequential | crates/evo-agent/src/agent_loop.rs:993-1049 | The valid calls start in source order, each only when every call before it has ended and has its result message, with that result; results are what their own calls came to; all are answered unless cancelled, and after a cancellation only calls that cannot be correlated are passed over |
| ToolBatch.NextStarts | crates/evo-agent/src/agent_loop.rs:1020-1028 | A call may start when nothing is open and every ended call has its result |
| ToolBatch.FailTruncated | crates/evo-agent/src/agent_loop.rs:916-964 | Every call of a truncated message starts and fails, none runs |
| ToolBatch.RejectAmbiguousBatch | crates/evo-agent/src/agent_loop.rs:884-914 | A batch with a repeated id fails as a whole, and only such a batch |
| ToolBatch.HasRepeatedId | crates/evo-agent/src/agent_loop.rs:884-914 | The search finds a repeated id exactly when there is one |
| ToolBatch.PrepareToolCall | crates/evo-agent/src/agent_loop.rs:1256-1376 | Invalid, recorded, refused and blocked calls settle at once with what the world has in store for them, and so does any call once cancelled; the others become ready with the hook's arguments, if it replaced them |
| ToolBatch.Settle | crates/evo-agent/src/agent_loop.rs:1663-1697 | End event and result message of the next call, both with the call's own result and error flag |
| AgentEvents.FoldAgrees | crates/evo-agent/src/agent.rs:90-150 | The folded transcript is the old one and the messages that ended; pending calls are the open ones |
| AgentEvents.FoldIsIdle | crates/evo-agent/src/agent.rs:90-150 | A finished run leaves nothing streaming |
| AgentEvents.MutableAgentState.ReduceEvent | crates/evo-agent/src/agent.rs:90-138 | The in-place update is one step of the fold |
| AgentEvents.AppendInner | crates/evo-agent/src/agent_loop.rs:228-503 | Events inside a turn keep its phase, and leave no call open if they close what they open |
| ProviderCache.ProviderMessageCache.TakeMessages | crates/evo-agent/src/agent_loop.rs:618-640 | A cached answer is the full conversion of the context, for any converter that is additive |
| ProviderCache.ProviderMessageCache.Invalidate | crates/evo-agent/src/agent_loop.rs:612-616 | An invalid cache answers nothing |
| ProviderCache.ProviderMessageCache.RestoreMessages | crates/evo-agent/src/agent_loop.rs:642-645 | What was taken is given back |
| ProviderCache.DefaultConvert | crates/evo-agent/src/hooks.rs:223-236 | The default converter's loop computes the incremental filter |
| ProviderCache.DefaultIncrementalSplits | crates/evo-agent/src/hooks.rs:238-248 | The default conversion of a concatenation is the concatenation of the conversions |
| ProviderCache.DefaultIsLawful | crates/evo-agent/src/hooks.rs:101-104 | So the default converters meet the law the cache needs |
| EventStream.RunDelivers | crates/evo-ai/src/event_stream.rs:57-81 | Main result, for every run: the consumer has a prefix of the accepted pushes, or all of them and the first terminal; the queue keeps its count, and the payload bytes of what is queued or holds permits stay within the budget, unless it is one oversized event alone; event and result agree |
| EventStream.WithinBudget | crates/evo-ai/src/event_stream.rs:216-249 | The bound in bytes, summed over the payloads themselves |
| EventStream.AcquiresIff | crates/evo-ai/src/event_stream.rs:216-226 | A waiting push that is not cancelled gets its permits exactly when its bytes, at least one, fit beside those queued, or nothing is queued |
| EventStream.AcceptsIff | crates/evo-ai/src/event_stream.rs:227-249 | A push that holds its permits is queued exactly when there is room, and is then the last event queued, accepted and committed |
| EventStream.ProducerCanLeave | crates/evo-ai/src/event_stream.rs:57-97 | The producer can always be dropped, whatever it waits for, and then its own steps leave no channel open |
| EventStream.CancelledIff | crates/evo-ai/src/event_stream.rs:57-97 | A run is cancelled exactly when somebody cancelled it or the consumer left |
| EventStream.RunIsOnward | crates/evo-ai/src/event_stream.rs:126-251 | Over every run: the first terminal wins, nothing follows it, nothing is accepted after it or after cancellation, and nothing received is lost |
| EventStream.RunKeeps | crates/evo-ai/src/event_stream.rs:126-251 | Every step of producer, consumer and canceller keeps the invariant |
| EventStream.Keeps | crates/evo-ai/src/event_stream.rs:172-251 | One step does |
| EventStream.CancelledTerminal | crates/evo-ai/src/event_stream.rs:176-205 | A terminal pushed once cancelled is delivered as an abort with exactly the content of the last queued event, the committed metadata, and the text of the pushed error if that was an abort; and the result says the same |
| EventStream.MetadataKeepsContent | crates/evo-ai/src/event_stream.rs:126-167 | A metadata checkpoint takes over everything of the message but the content, which stays that of the last queued event; once cancelled it does nothing |
| EventStream.BlockedHasQueue | crates/evo-ai/src/event_stream.rs:216-249 | A blocked producer has something queued ahead of it |
| EventStream.DrainingUnblocks | crates/evo-ai/src/event_stream.rs:216-249 | So receiving what is queued unblocks it, an oversized event included |
| EventStream.ConsumerNotStuck | crates/evo-ai/src/event_stream.rs:57-81 | Once the producer is done or dropped the consumer always has a next answer |
| EventStream.ConsumeLeavesProducer | crates/evo-ai/src/event_stream.rs:57-97 | The consumer never touches what the producer has committed or chosen |
| EventStream.Stream.Push | crates/evo-ai/src/event_stream.rs:172-251 | A push is accepted at the end of the queue, refused by cancellation with nothing committed, or a no-op after the terminal |
| EventStream.Stream.PushTerminal | crates/evo-ai/src/event_stream.rs:176-212 | Result, terminal, then the end of the queue, with the consumer running in between |
| EventStream.Stream.AwaitPermits | crates/evo-ai/src/event_stream.rs:221-226 | Waiting for the byte budget commits nothing |
| EventStream.Stream.AwaitRoom | crates/evo-ai/src/event_stream.rs:227-249 | Waiting for room commits nothing until it is accepted |
| EventStream.Stream.CommitMetadata | crates/evo-ai/src/event_stream.rs:126-167 | Its early returns and copies are the checkpoint of the specification |
| EventStream.Stream.Next | crates/evo-ai/src/event_stream.rs:57-66 | Queued events first, the terminal once the queue has closed empty, then nothing |
| EventStream.Stream.Result | crates/evo-ai/src/event_stream.rs:68-81 | The result is that of the chosen terminal, and an error only if there was none |
| ToolProgram.RunWithinLimits | crates/evo-agent/src/tool_program.rs:283-319 | Main result, for every run over an invocation tree: at most 8 running per program and 8 per tree, at most 128 starts, at most 16 retained requests |
| ToolProgram.ShutdownIsFinal | crates/evo-agent/src/tool_program.rs:202-207 | Main result: once `finish` has returned, nothing runs in the program or in any program below it, and nothing ever starts there again |
| ToolProgram.SubtreeQuiet | crates/evo-agent/src/tool_program.rs:202-207 | A finished program has only finished programs below it |
| ToolProgram.ClosedAdmitsNothing | crates/evo-agent/src/tool_program.rs:294-319 | A cancelled or terminated program admits nothing more on any run, thanks to the second look under the lock |
| ToolProgram.TerminatingResultCloses | crates/evo-agent/src/tool_program.rs:451-459 | Once a terminating result is retained no further request is admitted |
| ToolProgram.FinishNotStuck | crates/evo-agent/src/tool_program.rs:202-207 | A waiting `finish` is never stuck: it, or something it waits for in the program or below, can take a step that brings the shutdown forward |
| ToolProgram.FinishCompletes | crates/evo-agent/src/tool_program.rs:202-207 | So it returns: if nothing more is asked or opened below, the steps that bring the shutdown forward end it, within the number of steps that is left to do |
| ToolProgram.StepWork | crates/evo-agent/src/tool_program.rs:202-319 | That number goes down with every such step, and no step of anyone raises it unless it asks or opens something new below |
| ToolProgram.RunKeeps | crates/evo-agent/src/tool_program.rs:202-319 | Every step keeps the invariant |
| ToolProgram.KeepsConserved | crates/evo-agent/src/tool_program.rs:283-292 | Every permit is free or held by exactly one request |
| ToolProgram.KeepsBudgeted | crates/evo-agent/src/tool_program.rs:296-319 | Admissions never exceed the start budget |
| ToolProgram.KeepsQuiet | crates/evo-agent/src/tool_program.rs:202-207 | Finished programs run nothing |
| ToolProgram.DecideQuiet | crates/evo-agent/src/tool_program.rs:296-319 | The section under the lock admits nothing into a finished program |
| ToolProgram.AllFree | crates/evo-agent/src/tool_program.rs:202-207 | Eight free permits mean that no request runs |
| ProgramHistory.StartIff | crates/evo-agent/src/tool_program.rs:283-319 | Main result: a start past its entry check that nobody disturbs is admitted if and only if fewer than 8 requests are in flight in its program and in the tree, fewer than 16 are retained, fewer than 128 were started and the program is open; else the tree is as it was, but for one refused request |
| ProgramHistory.PermitIff | crates/evo-agent/src/tool_program.rs:283-287 | A permit of the program is there exactly when fewer than 8 of its requests are in flight |
| ProgramHistory.TreePermitIff | crates/evo-agent/src/tool_program.rs:288-292 | and one of the tree exactly when fewer than 8 are in flight in all programs |
| ProgramHistory.DecideIff | crates/evo-agent/src/tool_program.rs:294-319 | Under the lock a start is admitted exactly while fewer than 16 requests are retained, fewer than 128 were started and the program is open; one that only the second look refuses has used up a start |
| ProgramHistory.StoppedIff | crates/evo-agent/src/tool_program.rs:202-207 | Over every run: a program is cancelled exactly when it was told to stop, and finished exactly when its shutdown returned |
| ProgramHistory.TerminatedIff | crates/evo-agent/src/tool_program.rs:451-459 | and it is closed by its results exactly when a request of it ended with a terminating one |
| ProgramHistory.StageIff | crates/evo-agent/src/tool_program.rs:296-319 | A request waits, has its result or is over exactly by the steps taken for it, and runs only after the section under the lock |
| ProgramHistory.RetainsIff | crates/evo-agent/src/tool_program.rs:312-319 | A program retains exactly the requests it admitted, until they are disposed of |
| ProgramHistory.DisposeMakesRoom | crates/evo-agent/src/tool_program.rs:576-583 | Disposing of a retained request takes exactly that one away |
| ProgramHistory.RunningMayOpen | crates/evo-agent/src/tool_program.rs:131-174 | A running call can always open a program of its own, in which nothing is in flight and starts may be asked for |
| ToolProgram.ProgramTree.Start | crates/evo-agent/src/tool_program.rs:221-319 | A started request found its program open at the entry check and is still open when it is admitted under the lock, with other tasks running in between |
| ToolProgram.ProgramTree.Proceed | crates/evo-agent/src/tool_program.rs:283-319 | Refused for want of a permit, or by the count, the budget or the second look |
| ToolProgram.ProgramTree.FinishProgram | crates/evo-agent/src/tool_program.rs:202-207 | Cancels, then returns only when all eight permits are free |
| UpdateGate.RetiredForGood | crates/evo-agent/src/tool_program.rs:674-708 | Main result: when a `retire` has returned no callback is active and none is ever admitted |
| UpdateGate.ClosedOnlyDrains | crates/evo-agent/src/tool_program.rs:677-685 | A closed gate only empties |
| UpdateGate.DrainedWaiterReturns | crates/evo-agent/src/tool_program.rs:686-708 | No interleaving loses the wake-up: once the callbacks are out, every waiter can return by its own steps |
| UpdateGate.WordIsDoor | crates/evo-agent/src/tool_program.rs:668-708 | Over every run the one word is a door: its top bit says whether somebody has closed it, and the rest counts the callbacks that were let in and have not left |
| UpdateGate.LooksAtDoor | crates/evo-agent/src/tool_program.rs:686-708 | A waiter finds the gate drained exactly when the door is shut with nobody inside, and only the last callback to leave wakes the waiters |
| UpdateGate.NotifyReachesAll | crates/evo-agent/src/tool_program.rs:702-708 | A notification reaches every waiter that has registered and not yet returned |
| UpdateGate.RunKeeps | crates/evo-agent/src/tool_program.rs:668-708 | Every step keeps the invariant |
| UpdateGate.Shared.RetireGate | crates/evo-agent/src/tool_program.rs:686-700 | The loop of `retire`, with callbacks and other waiters running between its steps |
| ResultPaging.ReadPage | crates/evo-agent/src/tool_program_results.rs:70-97 | A page is cut at a character boundary within its limit, refused only off a boundary or past the end, and makes progress |
| ResultPaging.ReadAll | crates/evo-agent/src/tool_program_results.rs:70-97 | Following `nextOffset` ends, and the pages are the stored text |
| ResultPaging.PageIsText | crates/evo-agent/src/tool_program_results.rs:84-95 | Every page is the UTF-8 encoding of a stretch of the text |
| ResultPaging.BoundarySplits | crates/evo-agent/src/tool_program_results.rs:85-91 | A boundary lies between two characters |
| ResultPaging.BoundaryNear | crates/evo-agent/src/tool_program_results.rs:73-91 | Among four bytes one starts a character, which is why a limit of four is enough |
| ResultPaging.DecodeEncode | crates/evo-agent/src/tool_program_results.rs:70-97 | The bytes that are paged are UTF-8 (section 3 of RFC 3629): decoding them by the table of that section gives the text back |
| ToolResults.ResultTree.RetainResult | crates/evo-agent/src/tool_program_results.rs:30-69 | Kept exactly when charge, references and free permits allow; the charge counts the bytes of the encoded text; charges plus free permits stay 64 MiB |
| ToolResults.ResultTree.ReleaseResult | crates/evo-agent/src/tool_program_results.rs:98-108 | Gives back exactly what the result was charged |
| ToolResults.ResultTree.ClearProgram | crates/evo-agent/src/tool_program_results.rs:15-17 | Clears one program's results and no other's |
| ToolResults.ChargeIsExact | crates/evo-agent/src/tool_program_results.rs:37-46 | The checked charge refuses exactly the charges above the quota; no overflow passes for a small one |
| ToolResults.OverheadIsNodes | crates/evo-agent/src/tool_program_results.rs:19-28 | The checked fold is 128 bytes a node, or refused when that does not fit a word |
| ToolResults.ContentBudget.AddBlock | crates/evo-agent/src/tool_program_results.rs:142-162 | A block is accepted exactly when the array with it stays within 256 blocks and 32 MiB, commas and brackets counted |
| ToolResults.CountBytes | crates/evo-agent/src/tool_program_results.rs:163-179 | Stopping at the first chunk that does not fit refuses exactly the blocks that do not fit |
| ToolResults.ResolveContentParts | crates/evo-agent/src/tool_program_results.rs:243-281 | The composed blocks in order, or a refusal exactly when too many parts, an unresolved one, or too much content |
| ToolResults.ComposedIff | crates/evo-agent/src/tool_program_results.rs:243-281 | Content is composed exactly when every part stands for something: inline blocks, a retained result, or a selection of its blocks within bounds |
| ToolResults.ComposedHas | crates/evo-agent/src/tool_program_results.rs:243-281 | and then it is what the parts stand for, part after part and block after block, selected ones in the order of the indices |
| ToolResults.AddAll | crates/evo-agent/src/tool_program_results.rs:256-263 | Blocks are added one at a time, and a refusal means that the whole does not fit |
| ToolResults.FitsIsPrefixClosed | crates/evo-agent/src/tool_program_results.rs:142-162 | Nothing added makes content fit again |
| Accounting.Book.Retain | crates/evo-agent/src/tool_program_accounting.rs:16-35 | The fields say of the retained results what can be said without their order |
| Accounting.Book.Merge | crates/evo-agent/src/tool_program_accounting.rs:36-67 | A call's report as a function of its own result and all its children's |
| Accounting.CheckedAdd | crates/evo-agent/src/tool_program_accounting.rs:68-89 | The sum, or refusal exactly when a field overflows |
| AccountingOrder.MergeIgnoresOrder | crates/evo-agent/src/tool_program_accounting.rs:16-67 | The report is the same for every order of the children when in every field the positive counts together fit an `i64` and so do the negative ones, and also when the total does not fit |
| AccountingOrder.AnyOrderFitsIff | crates/evo-agent/src/tool_program_accounting.rs:19-27 | No order of the children overflows on the way if and only if in every field the positive counts fit and the negative ones fit |
| AccountingOrder.MergeIgnoresOrderIff | crates/evo-agent/src/tool_program_accounting.rs:16-67 | Where one order reports its usage, all orders report the same if and only if those sums fit |
| AccountingOrder.BadOrder | crates/evo-agent/src/tool_program_accounting.rs:19-27 | If they do not, an order that overflows |
| AccountingOrder.NonNegativeMergeIgnoresOrder | crates/evo-agent/src/tool_program_accounting.rs:16-67 | With no negative counts the report never depends on the order |
| AccountingOrder.NegativeCountsOrder | crates/evo-agent/src/tool_program_accounting.rs:19-27 | An example where that fails: three counts that overflow in one order and not in another |
| AccountingTree.TreeMergesIff | crates/evo-agent/src/agent_loop.rs:1563-1567 | With no negative counts, every merge of an invocation tree succeeds if and only if the tree's total and names fit, and so did every total that a hook has replaced |
| AccountingTree.ReportIsTree | crates/evo-agent/src/agent_loop.rs:1563-1615 | When no merge fails, a call reports the sum, the names and the termination of its whole tree, but for the usage and termination that `after_tool_call` hooks have put in their place |
| Accounting.TotalDecides | crates/evo-agent/src/tool_program_accounting.rs:19-27 | With no negative counts every partial sum fits exactly when the total does |
| Progress.ProjectionIsApplication | crates/evo-durable/src/progress.rs:133-148 | Main result: filtering the batch's victims first and then applying it is applying it |
| Progress.AppliedSplits | crates/evo-durable/src/progress.rs:108-131 | A batch drops what any of its records clears and adds what survives of its own |
| Progress.AppliedMembers | crates/evo-durable/src/progress.rs:108-131 | Exactly which frames a batch leaves |
| ProgressStreams.StreamsApply | crates/evo-durable/src/progress.rs:108-131 | Stream by stream: a frame joins the list of its own stream, a clearing record empties that of its stream, or those of all streams of its run in its lane, and nothing else |
| ProgressStreams.StreamsPrune | crates/evo-durable/src/progress.rs:150-163 | Pruning empties the streams of runs completed in their own lane, and no others |
| ProgressStreams.StreamsDecide | crates/evo-durable/src/progress.rs:196-217 | The streams and the increasing sequence numbers determine the whole checkpoint |
| Progress.ProgressState.Prepare | crates/evo-durable/src/progress.rs:71-105 | Ready exactly for distinct, fresh, legal records within the sequence range, stamped in order |
| Progress.ProgressState.Apply | crates/evo-durable/src/progress.rs:108-131 | Applies a prepared batch, and keeps the checkpoint sound and its index exact |
| Progress.ProgressState.Project | crates/evo-durable/src/progress.rs:133-148 | A new state equal to the applied one |
| Progress.ProgressState.PruneCompleted | crates/evo-durable/src/progress.rs:150-163 | Drops exactly the frames of completed runs |
| Progress.ProgressState.ProjectCompleted | crates/evo-durable/src/progress.rs:166-186 | The pruned state, or nothing exactly when there is nothing to prune |
| Progress.ProgressState.Validate | crates/evo-durable/src/progress.rs:196-217 | Accepts exactly the sound checkpoints and rebuilds the index that was not stored |
| Progress.ProgressState.Retain | crates/evo-durable/src/progress.rs:116-126 | Filtering keeps the index in step |
| Progress.ProgressState.CheckRecords | crates/evo-durable/src/progress.rs:72-90 | The loop decides admissibility |
| Progress.PruningIsIdempotent | crates/evo-durable/src/progress.rs:150-163 | A second pruning finds nothing, and no completed frame is left |
| Progress.SoundOnly | crates/evo-durable/src/progress.rs:116-126 | Dropping frames keeps a checkpoint sound |
| JsonRepair.RepairJson | crates/evo-ai/src/json_parse.rs:36-113 | The index loop computes the repair |
| JsonRepair.RepairEscape | crates/evo-ai/src/json_parse.rs:60-100 | A backslash is kept with its escape sequence or doubled |
| JsonRepair.RepairIsIdentityIff | crates/evo-ai/src/json_parse.rs:36-113 | Repair changes exactly the text whose string literals break section 7 of RFC 8259 |
| JsonRepair.RepairIsWellEscaped | crates/evo-ai/src/json_parse.rs:36-113 | Repaired text never does |
| JsonRepair.RepairIsIdempotent | crates/evo-ai/src/json_parse.rs:36-113 | Repairing twice is repairing once |
| JsonRepair.RepairKeepsStructure | crates/evo-ai/src/json_parse.rs:36-113 | Brackets and commas outside strings, and whether the text ends in a string, are unchanged |
| JsonReading.RepairReads | crates/evo-ai/src/json_parse.rs:36-113 | Main result: repaired text says exactly what the original does, character by character, where a raw control character and a stray backslash in a string stand for themselves |
| JsonReading.ControlIsEscaped | crates/evo-ai/src/json_parse.rs:22-31 | A control character becomes the shortest escape sequence that stands for it |
| JsonReading.WellEscapedIff | crates/evo-ai/src/json_parse.rs:36-113 | What counts as well escaped is section 7 of RFC 8259 |
| JsonReading.ScanReads | crates/evo-ai/src/json_parse.rs:172-215 | The scan for closing sees exactly the brackets and the last character outside strings, and whether the text ends in one |
| JsonRepair.CloseTruncatedJson | crates/evo-ai/src/json_parse.rs:172-238 | The scan, the removal of the comma and the closing loop compute the closed text |
| JsonRepair.ClosedRepairIsBalanced | crates/evo-ai/src/json_parse.rs:172-238 | Main result: closing repaired text ends outside a string, and its brackets are exactly balanced if and only if the original's are a prefix of nested ones |
| JsonRepair.CloseScan | crates/evo-ai/src/json_parse.rs:217-237 | Closing adds one closer for each open bracket |
| JsonRepair.CommaScan | crates/evo-ai/src/json_parse.rs:222-227 | The removed comma is structural and only blanks follow it |
| Chars.AsciiBlanks | crates/evo-ai/src/json_parse.rs:205-208 | Of the ASCII characters exactly space, tab, line feed, vertical tab, form feed and carriage return count as blank |
| JsonRepair.CloseShape | crates/evo-ai/src/json_parse.rs:217-237 | Closing takes a trailing comma away, or else adds the missing quote, and then appends the closers; the rest of the text stays |
| JsonRepair.CloseNeedsNoBackslash | crates/evo-ai/src/json_parse.rs:217-220 | Text that ends in a pending backslash is not closed: the added quote is escaped |
| HandOff.OneRoute | crates/evo-engine/src/agent_tool.rs:856-920 | Main result, for every interleaving: a run is settled at most once and its outcome takes at most one route, by the side that won the tie; exactly one when call and worker are over |
| HandOff.OutcomeNotStuck | crates/evo-engine/src/agent_tool.rs:862-900 | Until then the call or the worker can always go on |
| HandOff.TieIsFinal | crates/evo-engine/src/agent_tool.rs:870-900 | The tie is decided once |
| HandOff.ReleasedRunGoesOn | crates/evo-engine/src/agent_tool.rs:926-956 | A run that was not told to stop when it was released is not stopped by its old call afterwards, whatever the others do |
| HandOff.ReleasedRunStopsIff | crates/evo-engine/src/agent_tool.rs:926-956 | For every release the invariant allows: some run from there has the old call stop the released run if and only if the watcher had decided to, or had already done so, when it was released |
| HandOff.UnsignalledRunGoesOn | crates/evo-engine/src/agent_tool.rs:926-956 | In particular when neither the call's signal nor its scope had ended |
| HandOff.SignalledRunMayStop | crates/evo-engine/src/agent_tool.rs:943-950 | An example of a run that is stopped: a reachable race of signal, watcher and release |
| HandOff.SessionEndsRun | crates/evo-engine/src/agent_tool.rs:926-956 | When the session ends, the watcher's own steps end the run or tell it to stop, whatever had happened before |
| HandOff.WatcherNotStuck | crates/evo-engine/src/agent_tool.rs:926-956 | The watcher goes on exactly when what it waits for has ended: run, session, signal or scope for a waiting call, run or session for a released one |
| HandOff.SteeringReleases | crates/evo-engine/src/agent_tool.rs:882-900 | A steering message releases any call that still waits, unless its run has just ended |
| HandOff.OutsideIff | crates/evo-engine/src/agent_tool.rs:856-956 | Over every run the tokens have ended exactly when somebody ended them, and only steering releases a call |
| HandOff.Shared.Drive | crates/evo-engine/src/agent_tool.rs:882-920 | The call's loop ends with the settled outcome or with a release, never both |
| AgentRegistry.Registry.Insert | crates/evo-engine/src/agent_tool.rs:512-538 | Evicts only finished jobs, oldest first, down to sixteen or until all left are running, and loses none |
| AgentRegistry.OldestFinished | crates/evo-engine/src/agent_tool.rs:519-526 | The first least recently used finished job |
| AgentRegistry.UnreportedBackgroundAgents | crates/evo-engine/src/agent_tool.rs:124-163 | The loop over a growing list finds the agents whose latest start nothing answers and no queued report names |
| AgentRegistry.LostMembers | crates/evo-engine/src/agent_tool.rs:124-163 | An agent is listed exactly for an unanswered start, and never twice |
| AgentRegistry.LostLater | crates/evo-engine/src/agent_tool.rs:124-163 | One more message leaves out exactly the agents it supersedes |
| AgentRegistry.RecoveryIsComplete | crates/evo-engine/src/agent_tool.rs:165-212 | Once the message that reports the listed agents lost has been read, none is listed any more |
| AgentRegistry.QueuedNoteIsSeen | crates/evo-engine/src/agent_tool.rs:155-162 | and while it waits in the queue it is seen there, as text or within a JSON string |
| ChildOutput.AnyRun | crates/evo-engine/src/child_agents.rs:63-223 | Main result, for any sequence of observe, fail, completion and poll: polled deltas are a prefix of the accepted ones, an ending is reported only with all of them and never changes, within 4 MiB |
| ChildOutput.DrainAll | crates/evo-engine/src/child_agents.rs:196-223 | Polling a settled run delivers everything and its ending |
| ChildOutput.Job.Observe | crates/evo-engine/src/child_agents.rs:71-112 | A delta is queued, or ends the run when it would exceed the limits |
| ChildOutput.Job.Fail | crates/evo-engine/src/child_agents.rs:63-69 | The first ending stays |
| ChildOutput.Job.Publish | crates/evo-engine/src/child_agents.rs:564-588 | The result is set once, unless it does not fit or the run has failed |
| ChildOutput.Job.Poll | crates/evo-engine/src/child_agents.rs:195-223 | As many deltas as fit a reply, at least one, and the ending only with the last |
| ChildOutput.TakeFront | crates/evo-engine/src/child_agents.rs:205-214 | The longest run of deltas within the reply limit |
| ChildOutput.ChildAgents.Reserve | crates/evo-engine/src/child_agents.rs:322-338 | Whatever the exchange does, at most sixteen permits are out |
| ChildOutput.ChildAgents.StartChild | crates/evo-engine/src/child_agents.rs:311-340 | Revoked owners, full tables and pending clean-up refuse, and change nothing |

## Left out

- StrictRoundTrip.StrictCallRoundTrip: the fragment is `StrictRoundTrip.Supported`. Below a node that repair can change, `enum` and `const` are scalar, `anyOf` variants have no schema-valued `additionalProperties`, and other keywords in them look at scalars only; and the conditions of `RoundTripIff`, `VariantsIff` and `NullSurvivesIff` hold.
- SchemaRepair.CoerceKeepsValidIff: says nothing of schemas whose keywords can undo each other's changes, as in `SchemaGaps.LaterKeywordUndoes`; for those `SchemaRepair.CoerceKeepsValid` gives the one direction that holds.
- SchemaRepair.ValidateIsExact: schemas mean what Draft 7 says; a `$schema` that names another draft is left out. A `$ref` is known by what it accepts in its document, and a sub-schema with references by what it accepts when compiled by itself; how pointers are resolved is not part of this model.
- SchemaRepair.CoerceToDeclaredType: numbers are the integers of `i64` and `u64`; fractions, and strings that denote them, are not modelled.
- SchemaRepair.ValidateToolArguments: error texts and the list of validation errors are left out.
- StrictSchema.MakeStrictNode: the order of `required` and of keys is left out, and keywords that strict mode rejects are one flag.
- FrameRoundTrip.OpenTextIsLonger: says so when snapshot and deltas agree where they overlap, as the stream promises; otherwise the replayed text is the snapshot followed by the part of the deltas beyond its length.
- Frames.Encoder.Next: message fields that no frame changes are one `identity`; the snapshot a delta event carries, which the encoder does not read, is left out.
- AgentLoop.RunLoop: `fuel` bounds how many turns are looked at; a run that goes on is `Unfinished`, and all but its ending is stated for it too.
- AgentLoop.FoldStream: how many message updates a stream has, and which delta each carries, is left out.
- AgentLoop.RunGoesOn: hooks, queues and cancellation may do anything at any time; that a run stops by a hook is recorded in the run, not in its events.
- ToolBatch.Settle: the model's result message also carries `terminate`, which the source keeps beside the message.
- ToolBatch.PrepareToolCall: error texts other than those of aborted and blocked calls are left out; looking up the tool and validating its arguments are one refusal, with its reason.
- ToolBatch.ExecuteParallel: a panicking tool is one that returns an error; panic unwinding is not part of this model.
- ProviderCache.ProviderMessageCache.TakeMessages: needs the law the source asks of a converter pair; it is proved for the default pair only.
- EventStream.Stream.Push: a wait is looked at for any number of polls, then the push counts as dropped; that a free permit is eventually granted is left to the runtime.
- ToolProgram.ProgramTree.Start: the checks of name, arguments, mode and ancestors, which refuse without changing anything, are left out, and so are the timeouts and the read-write lock among children.
- ToolProgram.ShutdownIsFinal: a child ends only after the programs it opened have finished, as its tool call awaits them; dropping it is not part of this model.
- ResultPaging.ReadAll: the lookup of the result and the liveness check before each page are left out.
- ToolResults.ResultTree.RetainResult: an id is retained once, as ids are unique and each request retains once.
- Accounting.Book.Merge: costs are floating point and left out; the order of the merged names is a parameter.
- Progress.ProgressState.Prepare: timestamps come from an arbitrary clock.
- HandOff.Shared.Drive: a panicking worker and a dropped call are left out, and so is whether the parent still exists when it is told.
- AgentRegistry.UnreportedBackgroundAgents: reading the history's JSON into messages is left out.
- ChildOutput.Job.Publish: called once per run, as `run_child` does; worktrees and the mesh are left out.
- Networking, processes, files, OAuth and the desktop application: input and output only.
- Wire formats, diagnostics, redaction and timestamps.
- Fairness and timers of the async runtime: steps are nondeterministic, and progress is stated as "not stuck".
- `parse_streaming_json` as a whole: the strict parser behind it is not part of this model; its repair and closing layers are.
- `read` and `at_sequence` of the checkpoint store, queue modes, clocks and abort tokens: they would only add easy members.
