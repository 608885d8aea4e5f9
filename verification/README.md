# Verified model of HelixFlow's compiler, event client and editing protocols

This project models the parts of HelixFlow whose correctness spans many functions or many
turns, and proves what they keep. Every result is stated for all inputs, all interleavings
or all reachable states of the model.

* **The intent compiler** (`crates/compiler`). A staged plan is validated (`Intent`), built
  into a typed workflow graph (`GraphBuilder`, `Layout`) and turned into edit operations that
  take the current graph to that target (`ProposalDiff`, `Compiler`). Operations mean what the
  graph service does with them (`Graph`, `Topology`), not what the web preview does.
  `Convergence` proves where applying a diff leads, exactly when it fails and how many rounds
  reach a fixpoint. `StagePlans` and `BuiltGraph` prove when the assembled graph is sound and
  when it loses something, and `Collisions` exactly when it is sound although synthesized ids
  collide with stages; `GraphCheck` is the service's structural validation and says what it can
  still find in an assembled graph; `AppliedGraph` says when the graph a diff leaves behind is
  still sound. `StageMeaning` says what each compiled node carries and why a stage halts the
  build, `GraphEffects` what each operation does, and `Verdicts` which error is reported.
* **The live run-event protocol** (`web/src/api.ts`, `web/src/store-events.ts`). `RunEvents`
  is the event reducer and `EventFold` the states a server log folds to; `EventStream` is the
  client that drops duplicates, detects gaps and catches up over REST, in a world with a
  server log and a socket that loses, repeats and reorders messages. `EventSnapshots` adds the
  server's snapshots, which hold none of the notices that the client makes of events.
  `EventEffects` says, event name by event name, what is shown; `EventProgress` that nobody
  waits in vain and that the whole log can always be reached.
* **Manual-edit sessions** (`web/src/workbench-edit-session.ts`). `ManualEdit` is the preview
  interpreter over two representations of the graph and the split of a session into graph
  operations and a layout snapshot; `EditSplit` proves exactly when the split keeps the
  meaning, `EditInStep` that the two representations stay in step, `EditSignatures` exactly
  when their agreement by edge signature lasts, and `EditEffects` what each edit changes.
* **Two small concurrent machines**: workspace generations with the snapshot coordinator
  (`Snapshots`) and the version-migration store (`Migration`).
* **Algorithms with exact accounting**: the budgeted projection and the redaction of node
  parameters (`CanvasParams`), token masking (`Redact`), HTML escaping and decoding (`Html`).

Code that updates state step by step is a method or a class whose postcondition equates the
new state with a function of the old one; the theorems are about those functions. What the
functions mean is stated beside them without naming them or what they are made of.
Lemmas proved by induction turn automatic induction off, so that each induction is written out.
`Ordering` and `Seqs` hold the orders, the stable sort and the filter the rest uses.

Results worth knowing before reading the proofs:

* A diff fails to apply exactly when the current graph holds twice an edge that the target
  lacks: the service's `RemoveEdge` removes every copy, so the second removal finds none
  (`Convergence.RepeatedStaleEdgeFails`).
* A diff never converges the title or size of a kept node, and keeps parameters that only the
  current graph has. Edges touching a node whose type changed are lost for one round; the
  second round restores them, and no third round is ever needed.
* Synthesized input ids such as `a-text-input` are legal stage ids. With a collision an
  accepted plan can assemble into a cycle (`Compiler.CollidingIdsMakeACycle`). The real
  `validate_semantics` runs `validate_graph` (crates/graph/src/semantics.rs:204-206) and rejects
  that target; with any semantic validation that reports every structural fault, all compiled
  targets are valid, collisions or not (`Compiler.CompiledIsValid`).
* An assembled graph is sound exactly when no earlier stage's id is taken for an input, the
  stages that are taken give text, and consuming and taking together go round in no circle
  (`Collisions.SoundExactly`). If no stage's id is taken and inputs share ids only with their
  text nothing is lost, and this is exact (`BuiltGraph.BuildLosesNothingExactly`); if no two
  inputs share an id all edges go left to right. Without collisions structural validation can
  only object to params that do not fit their schema, to two references on one single input,
  and, in a registry where one node has two inputs of one name, to the wrong one being first
  (`GraphCheck.AssembledIsValidExactly`).
* After a diff is applied the graph is sound exactly when the edges lost to retyped nodes leave
  no required port without an edge or a value, and kept stage nodes had object params
  (`AppliedGraph.AppliedIsSoundExactly`).
* A snapshot that is behind the event stream can lose events: the socket's next event is then
  taken as the following one, and those between the snapshot's prefix and the stream's cursor
  are skipped unless a catch-up comes first (`EventSnapshots.StaleSnapshotSkips`). It does no
  harm, whatever follows, exactly when those events changed nothing but messages
  (`EventSnapshots.CommitIsSafeExactly`).
* A snapshot that is ahead of the stream loses the notices of the events it skips, because only
  the client makes them and their events are then dropped as old
  (`EventSnapshots.SnapshotLosesANotice`). It loses none exactly when no skipped event makes a
  notice that is not held yet (`EventSnapshots.CommitLosesNoNoticeExactly`).
* Splitting an edit session is not always meaning-preserving: a node moved or resized and
  then spawned again elsewhere ends up in a different place. The exact condition is
  `EditSplit.LayoutSafe`.
* Agreement of the two previews by edge signature alone is not kept, because a colon inside an
  id moves a boundary of the signature. It lasts through every session exactly when each side
  has, for every edge of the other, one with the same signature at none but the same nodes
  (`EditSignatures.AgreementLastsExactly`); without separators in the ids it always lasts.
* The preview's clone of the workflow graph drops `catalog_revision`
  (web/src/workbench-edit-session.ts:429-451), although web/src/types.ts:54-55 says that both
  semantic fields are kept. The model follows the code.
* The "exactly one stage" error of a linear plan is dead code.
* The live client cannot get stuck: in every reachable state whoever waits has a request on its
  way, and unless it is closed the client can go on to hold the whole log
  (`EventProgress.EveryWaitIsReleased`, `EventProgress.EveryRunCanCatchUp`).
* A migration's operation id is repeated until a definite answer, unless a check that was
  aborted completes all the same while its context is shown and another context's apply is
  undecided (`Migration.LateCheckFitsExactly`); what it found then sends a second operation
  (`Migration.LateCheckSendsASecond`).
* Adopting a workspace loses a refresh request exactly when it changes the workspace under a
  fetch in flight (`Snapshots.AdoptFitsExactly`); the store adopts only into generations that
  began without a workspace, where that cannot be (web/src/store.ts:109-114, 139-143).
* The fetch that loads a workspace is committed outside the coordinator. It is fresh exactly if
  no refresh was accepted in the meantime; otherwise it can take the place of a newer snapshot
  (`Snapshots.LoadGoesBack`).
* Depth markers in the parameter projection are free of charge, so the width of a projected
  value has no bound (`CanvasParams.WidthIsUnbounded`).

## Model

| member | source | states |
|---|---|---|
| Graph.ApplyAll | crates/graph/src/lib.rs:256-266 | The loop over a proposal's operations stops at the first error and otherwise yields the graph that the operations reach in order. |
| Graph.ApplyAppend | crates/graph/src/lib.rs:256-266 | Applying two scripts one after the other is applying their concatenation, errors included. |
| GraphEffects.AddingANode | crates/graph/src/lib.rs:272-276 | A node is added exactly if its id is free, and nothing else changes. |
| GraphEffects.RemovingANode | crates/graph/src/lib.rs:277-285 | Exactly a node that is there is removed, with every edge that touches it and nothing else. |
| GraphEffects.SettingAParam | crates/graph/src/lib.rs:286-310 | A param is set exactly if the node is there, its params are an object and the expected previous value, if one is given, is held; all other params stay. Each failure has its own error. |
| GraphEffects.AddingAndRemovingEdges | crates/graph/src/lib.rs:311-318 | Adding puts one more copy last; removing takes every copy and fails exactly if there is none. |
| GraphEffects.ChangingANode | crates/graph/src/lib.rs:319-339 | Moving, resizing and binding change one field of one node, which must be there. |
| Topology.TopologicalOrder | crates/graph/src/lib.rs:721-763 | Kahn's algorithm succeeds exactly when some topological order exists; its order is valid and takes the least free node each time; a missing endpoint is reported only for an edge whose target is absent. |
| Topology.RankGivesOrder | crates/graph/src/lib.rs:717-763 | A graph whose edges increase some integer rank is acyclic. |
| ProposalDiff.Diff | crates/compiler/src/proposal_diff.rs:6-95 | The pushed script is the specified one: sorted stale edges, dropped nodes, per-node changes in id order, sorted new edges. |
| ProposalDiff.DiffNode | crates/compiler/src/proposal_diff.rs:31-80 | The operations for one target node: add, replace on a type change, or changed params, position and semantics. |
| ProposalDiff.ScriptInOrder | crates/compiler/src/proposal_diff.rs:6-95 | The script is: stale edges in order, dropped nodes by id, for every target node by id its addition, replacement or changed params by key, place and semantics, then new edges in order; edges keep their multiplicity. |
| Convergence.ApplyingDiff | crates/compiler/src/proposal_diff.rs:6-95 | Applying a diff succeeds if and only if no stale edge is held twice, and then reaches exactly the graph `Reaches(c, t)`. |
| Convergence.DiffConverges | crates/compiler/src/proposal_diff.rs:6-95 | The reached graph has the target's ids, types, positions, semantics and params, the current graph's extra params, titles and sizes, and the target's edges minus those lost to retyped nodes. |
| Convergence.LostOnlyByRetyping | crates/compiler/src/proposal_diff.rs:37-46 | An edge is lost if and only if both graphs hold it and it touches a node whose type changed. |
| Convergence.StepsApplicableExactly | crates/compiler/src/proposal_diff.rs:9-91 | Every operation finds what it expects when it is reached (removed edges and nodes are there, dropped nodes have no edge left, `prev` equals the held value, added edges are absent with both endpoints present) if and only if no stale edge is held twice and no new one is asked for twice. |
| Convergence.DiffEmptyExactly | crates/compiler/src/proposal_diff.rs:6-95 | A diff is empty if and only if ids, types, positions, semantics, target params and edge sets already agree. |
| Convergence.SecondDiff | crates/compiler/src/proposal_diff.rs:83-92 | Diffing again after applying yields exactly the additions of the lost edges, sorted. |
| Convergence.TwoRoundsSuffice | crates/compiler/src/proposal_diff.rs:6-95 | One round is a fixpoint if and only if no edge was lost; two rounds always are. |
| Convergence.RetypingLosesAnEdge | crates/compiler/src/proposal_diff.rs:37-46 | A concrete closed pair of graphs where a common edge is missing after one round. |
| Convergence.RepeatedStaleEdgeFails | crates/compiler/src/proposal_diff.rs:10-19 | A concrete closed pair of graphs, with a repeated edge into a reference port, whose diff does not apply. |
| Intent.Validate | crates/compiler/src/intent.rs:60-118 | Reports the first defect in the order of the checks, or none. |
| Intent.ValidateTopology | crates/compiler/src/intent.rs:120-184 | Compares sorted declared outputs with sorted sinks, then checks the linear chain stage by stage. |
| Verdicts.PlanVerdict | crates/compiler/src/intent.rs:60-184 | A rejected plan is reported with the first thing wrong: version, no stages, no outputs, the first bad stage and what is first wrong with it, the first unknown output, the two differing lists, or the first stage out of the chain. |
| Verdicts.StageIdsExactly | crates/compiler/src/intent.rs:187-195 | A stage id is valid if and only if it has 1 to 64 characters, a lower-case letter first and then lower-case letters, digits, `_` and `-`. |
| Intent.AcceptsExactly | crates/compiler/src/intent.rs:60-184 | A plan is accepted if and only if it has stages and outputs, ids are valid and distinct, params are objects, every reference goes to a strictly earlier stage, the declared outputs are exactly the unconsumed stages, and a linear plan is one chain. |
| Intent.SortedComparison | crates/compiler/src/intent.rs:133-144 | Comparing the sorted, deduplicated declared ids with the sorted sinks is comparing them as sets. |
| Intent.EveryStageReachesAnOutput | crates/compiler/src/intent.rs:77-144 | In an accepted plan a chain of consumers leads from every stage to a declared output. |
| Intent.ConsumersAreLater | crates/compiler/src/intent.rs:94-105 | A consumer comes strictly after the stage it consumes. |
| Intent.ChainHasOneSink | crates/compiler/src/intent.rs:146-182 | The last stage of a linear chain is its only sink. |
| Intent.ManySinksNeverReported | crates/compiler/src/intent.rs:177-181 | The closing sink-count test of the linear branch never fires. |
| Layout.ApplyLayout | crates/compiler/src/graph_builder.rs:411-455 | The loop over growing branch and depth maps places every stage at its specified column and row and moves nothing else. |
| Layout.DepthIsLongestPath | crates/compiler/src/graph_builder.rs:430-442 | A stage's depth is the length of the longest input path that reaches it, and such a path exists. |
| Layout.ConsumedIsLeft | crates/compiler/src/graph_builder.rs:430-449 | A consumed stage lies in a strictly smaller column than its consumer. |
| Layout.LinearLayout | crates/compiler/src/graph_builder.rs:411-455 | Stage i of a linear plan sits in column i on row 0. |
| Layout.RootRowsDiffer | crates/compiler/src/graph_builder.rs:421-429 | Distinct roots of a parallel plan share column 0 and have distinct rows. |
| Layout.RowIsOfAnInput | crates/compiler/src/graph_builder.rs:430-442 | The row of a consumer is the greatest among the rows of the stages it consumes. |
| Layout.RootsTakeRowsInTurn | crates/compiler/src/graph_builder.rs:421-449 | A root of a parallel plan lies in column 0 and in the row that counts the roots before it; columns are 240 apart and rows 180. |
| Layout.LaidOutMeaning | crates/compiler/src/graph_builder.rs:446-449 | Laying out changes the positions of the plan's stages and nothing else. |
| GraphBuilder.WireInputs | crates/compiler/src/graph_builder.rs:99-146 | The wiring loop yields one edge per input reference or the first wiring error. |
| GraphBuilder.MaterializeInputs | crates/compiler/src/graph_builder.rs:165-204 | The loop over required text ports turns literal params into text inputs with their edges, as specified port by port. |
| GraphBuilder.CheckRequired | crates/compiler/src/graph_builder.rs:206-246 | The two loops collect the missing required ports and params and fill placeholders for wired params. |
| GraphBuilder.CompileStage | crates/compiler/src/graph_builder.rs:46-283 | One stage becomes a node, its edges and its text inputs, or the clarification or error that halts the build. |
| GraphBuilder.PlaceTextInputs | crates/compiler/src/graph_builder.rs:287-300 | Text inputs are placed one column left of their consumer, in order, and each gets a hint with the place it was given. |
| GraphBuilder.Finish | crates/compiler/src/graph_builder.rs:286-323 | The draft is laid out, its text inputs are placed, and the target is rejected by semantic validation or returned with the hints of all stages and then of all text inputs. |
| GraphBuilder.Build | crates/compiler/src/graph_builder.rs:28-323 | The build halts at the first halting stage, else finishes the draft of all stages. |
| StagePlans.BuildStageSound | crates/compiler/src/graph_builder.rs:99-274 | A compiled stage has its node type, typed edges, its required inputs and params, and exactly one text input for each materialized port, with that port's literal. |
| StageMeaning.BuiltStageIsRight | crates/compiler/src/graph_builder.rs:148-274 | A compiled node has its type and title, the capability in the mode of its binding, the resolved model pinned if and only if one was requested, the given params that did not become text inputs (a stage over its binding), and empty texts for required params fed by an edge. |
| StageMeaning.CompiledStagesAreRight | crates/compiler/src/graph_builder.rs:248-307 | All this holds of every stage in the compiled target, provided no earlier stage's id is taken for an input; the resolutions are listed in the order of the stages and the catalog revision is recorded. |
| StageMeaning.CompiledTextsAreRight | crates/compiler/src/graph_builder.rs:165-204 | Provided no text is lost, every materialized port of the compiled target has a text input that holds its given value, and an edge from it. |
| StageMeaning.StageOutcome | crates/compiler/src/graph_builder.rs:46-246 | A stage halts with the resolver's verdict, an unmapped capability, an unregistered type, its first reference that does not connect, or a report of exactly the names it lacks, each once and in order; otherwise it compiles. |
| StageMeaning.FirstHaltHalts | crates/compiler/src/graph_builder.rs:46-283 | The build is halted by the first stage that halts, with its halt. |
| StagePlans.NothingLostExactly | crates/compiler/src/graph_builder.rs:182-274 | In the node table every stage keeps the node compiled for it and every synthesized input its own text node, if and only if no materialized port gets a stage's id and shared ids have one text. |
| StagePlans.FreshExactly | crates/compiler/src/graph_builder.rs:182 | The ids of the materialized ports are fresh if and only if, in what the stages add up to, no synthesized id is a stage id and no two inputs share one. |
| BuiltGraph.BuildLosesNothingExactly | crates/compiler/src/graph_builder.rs:182-300 | The assembled graph holds every compiled stage node and every synthesized text, moved, if and only if no materialized port gets a stage's id and shared ids have one text. |
| BuiltGraph.AssembledIsClosed | crates/compiler/src/graph_builder.rs:141-145 | Both endpoints of every edge are nodes, even when ids collide. |
| BuiltGraph.AssembledGoesRight | crates/compiler/src/graph_builder.rs:286-300 | If no synthesized id is a stage id and no two inputs share one, every edge, synthesized ones included, goes strictly left to right. |
| BuiltGraph.FreshGoesRight | crates/compiler/src/graph_builder.rs:286-300 | With fresh ids of the materialized ports every edge of the built graph goes strictly left to right. |
| BuiltGraph.HintsArePositions | crates/compiler/src/graph_builder.rs:286-300 | With fresh ids every layout hint says where its node ended up. |
| BuiltGraph.AssembledPortsMatch | crates/compiler/src/graph_builder.rs:99-146 | If no synthesized id is a stage id, every edge joins the named output and a named input of one type and is labelled with it. |
| BuiltGraph.AssembledStagesComplete | crates/compiler/src/graph_builder.rs:206-274 | If no synthesized id is a stage id, every stage has its node type, an edge or a non-null param for each required port, and a key for each required param. |
| BuiltGraph.AssembledIsSound | crates/compiler/src/graph_builder.rs:28-307 | If no materialized port gets a stage's id, every assembled graph is closed, acyclic, well typed and complete. |
| GraphCheck.ValidateGraph | crates/graph/src/lib.rs:76-184 | The loops over nodes and edges and the cycle test report the first fault in the order of the checks, or none. |
| GraphCheck.AcceptsExactlyValid | crates/graph/src/lib.rs:76-184 | No fault is reported if and only if schema, sizes, types, params, required inputs, endpoints, ports, single inputs and edge types are right and the graph is acyclic. |
| Verdicts.GraphVerdict | crates/graph/src/lib.rs:76-184 | A rejected graph is reported with the first thing wrong: schema, the invalid node of least id, the first invalid edge, each with what is first wrong with it, or a cycle. |
| GraphCheck.AssembledIsValidExactly | crates/compiler/src/graph_builder.rs:302-316 | If no materialized port gets a stage's id, structural validation accepts the assembled graph if and only if all params fit their schemas, no stage has two references on one single input, and the first input of a name takes what is wired to that name, which it does wherever input names differ. |
| Compiler.Compile | crates/compiler/src/lib.rs:71-100 | Rejects exactly the plans that validation does not accept; otherwise halts as the build does or returns the assembled target with its diff, resolved stages and layout hints. |
| Collisions.SoundExactly | crates/compiler/src/graph_builder.rs:182-199 | An assembled graph is sound if and only if only later stages' ids are taken for inputs, a rank falls along consumption and taking, and, with text inputs registered, every taken stage's first output named `text` is of type text. |
| Compiler.CompiledIsValid | crates/compiler/src/graph_builder.rs:309-316 | If semantic validation reports every structural fault, as it does, every compiled target is structurally valid, collisions included. |
| Compiler.CompiledIsSound | crates/compiler/src/lib.rs:71-100 | A compiled target is sound if no materialized port gets a stage's id, and goes left to right if their ids are fresh. |
| Compiler.AppliedCompilation | crates/compiler/src/lib.rs:86-99 | Applying the compiled operations to the graph they were compiled for, if no stale edge is held twice, yields a closed and acyclic graph, which is sound if and only if every stage is still fed. |
| AppliedGraph.AppliedIsSoundExactly | crates/compiler/src/proposal_diff.rs:31-92 | The graph reached from a sound target is sound if and only if lost edges leave no required port without an edge or a value and kept stage nodes had object params. |
| AppliedGraph.NothingLostIsSound | crates/compiler/src/proposal_diff.rs:31-92 | If no edge is lost and kept nodes have object params, the reached graph is sound. |
| Compiler.RecompilingIsIdle | crates/compiler/src/compile_tests.rs:295-312 | Compiling the same plan again against the target it gave yields the same target and no operation. |
| Compiler.CollidingIdsMakeACycle | crates/compiler/src/graph_builder.rs:182-199 | A concrete accepted plan whose synthesized id is a stage id assembles into a cyclic graph. |
| RunEvents.ApplyTwice | web/src/store-events.ts:9-80 | Applying an event of any kind twice equals applying it once. |
| RunEvents.ApplyFrame | web/src/store-events.ts:9-259 | `eventSeq` never decreases nor passes the event, node ids, edges, run identity and message order are kept, and events of other workspaces change nothing. |
| RunEvents.ApplyAdvances | web/src/store-events.ts:34-79 | An event beyond `eventSeq` either moves it to the event or changes nothing. |
| RunEvents.OldRunEventsIgnored | web/src/store-events.ts:34-36 | Run and node events at or below `eventSeq` are ignored. |
| EventEffects.RunEventEffect | web/src/store-events.ts:66-77 | The four run events give running, succeeded, failed and interrupted; only a failure replaces the error, by the text of the event cut to 1200 characters and its first line cut to 160. |
| EventEffects.NodeEventEffect | web/src/store-events.ts:38-63 | A node event gives exactly the nodes and steps of its id the state and the cached flag, and the steps the error. |
| EventEffects.OtherEventEffect | web/src/store-events.ts:38-79 | Any other event of the shown run, or a node event without id or known state, changes only the sequence. |
| EventEffects.ForeignEventEffect | web/src/store-events.ts:9-36 | Events of another workspace change nothing, nor do run and node events of another run or at or below the sequence. |
| EventEffects.RetryEffect | web/src/store-events.ts:179-212 | The three retry events append one notice each, under the child run's id, saying failed, waiting or started, unless one of its id is there. |
| EventEffects.CancelEffect | web/src/store-events.ts:149-177 | The two remote-cancel events append a notice with provider and message or error. |
| EventEffects.RecoveryEffect | web/src/store-events.ts:115-147 | The four recovery events append a notice each; only an abandoned one is marked as failed. |
| EventEffects.AgentEffect | web/src/store-events.ts:234-308 | An agent event sets the one message of its session: detail message, else proposal title, else status, else event name, with its kind. |
| EventEffects.NoticesAre | web/src/store-events.ts:82-212 | Which events the client makes notices of, and the id of each. |
| EventEffects.EveryRunShowsTheStatus | web/src/store-events.ts:66-77 | In every run of the stream the shown status is the one that the last run event up to the client's sequence gives. |
| RunEvents.SnapshotKeepsNotices | web/src/store-events.ts:82-104 | A snapshot keeps its messages, gains exactly the notices it lacks, and doing it again changes nothing. |
| EventStream.EventClient.Dispatch | web/src/store.ts:348-365 | Delivering an event raises the stream cursor and applies the reducer. |
| EventStream.EventClient.RunHandler | web/src/api.ts:653-674 | A queued event is dropped, delivered or made to wait for a catch-up, by its distance from the stream's sequence. |
| EventStream.EventClient.ResumeHandler | web/src/api.ts:666-673 | After the catch-up a waiting event is dropped, delivered, or closes the socket if the gap is still open. |
| EventStream.EventClient.CatchupArrived | web/src/api.ts:622-637 | A catch-up answer is sorted and its events beyond the sequence are delivered in order. |
| EventStream.EventClient.MessageArrived | web/src/api.ts:710-733 | Messages of an old socket, a closed client or another workspace are not queued. |
| EventStream.EventClient.CatchupFailed | web/src/api.ts:658-665 | A failed catch-up takes a waiting handler, or the connection being opened, offline. |
| EventStream.EventClient.ConnectAgain | web/src/api.ts:745-749 | Unless closed, connecting is shown and what is missing is asked for. |
| EventStream.EventClient.TicketArrived | web/src/api.ts:682-699 | A ticket opens a socket under a new number. |
| EventStream.EventClient.SocketClosed | web/src/api.ts:700-704 | The loss of the current socket is shown and the connection tried again. |
| EventStream.EventClient.Dispose | web/src/api.ts:770-779 | Disposing closes the client and makes its socket an old one. |
| EventStream.SortedAnswer | web/src/api.ts:622-637 | Whatever its order, a sorted answer is the log segment after the asked sequence. |
| EventStream.EveryRunFoldsAPrefix | web/src/api.ts:622-674 | In every run of the stream the client state, notices included, is the in-order fold of the log's first `eventSeq` events: none skipped, none applied twice. |
| EventStream.CatchupReachesTheAnswer | web/src/api.ts:622-637 | When an answer arrives the client is at least as far as every event in it. |
| EventProgress.SequenceOfAStream | web/src/api.ts:649-651 | The sequence of the primary stream is the further of the state's and the stream's own; another stream has its own alone. |
| EventProgress.HeldEventIsDropped | web/src/api.ts:657 | An event that is held already is dropped. |
| EventProgress.NextEventIsApplied | web/src/api.ts:653-674 | The next event in order is applied and raises the stream's sequence to its own number. |
| EventProgress.GapStartsACatchup | web/src/api.ts:658-665 | An event beyond a gap waits while a catch-up from the state's sequence is under way. |
| EventProgress.OtherStreamsAreDelivered | web/src/api.ts:653-674 | Unseen events of other streams are delivered at once and move no cursor but their own. |
| EventProgress.EveryWaitIsReleased | web/src/api.ts:622-673 | In every run a waiting handler, and a connection being opened, have a request on its way, and its answer or failure releases them. |
| EventProgress.ResumedOrOffline | web/src/api.ts:666-673 | A handler that goes on has its event behind it, or the client is shown as offline. |
| EventProgress.GapCloses | web/src/api.ts:622-673 | From every reachable state with an event beyond a gap at hand: handler starts, server answers, answer arrives, handler resumes leave the handler ready and the state the fold of the whole log. |
| EventProgress.EveryRunCanCatchUp | web/src/api.ts:745-760 | However a run went, unless the client was closed, it can go on to hold the whole log. |
| EventProgress.OpenedSocketIsTheOnlyOne | web/src/api.ts:682-711 | A ticket opens a socket and shows it as live; what earlier sockets still send or do is ignored. |
| EventProgress.CurrentSocketCounts | web/src/api.ts:700-733 | Messages of the current socket for the workspace are queued in order; its loss is shown and the connection tried again. |
| EventProgress.ConnectingAsks | web/src/api.ts:745-750 | A connection that is tried again shows so and asks for what is missing. |
| EventProgress.ClosedStaysClosed | web/src/api.ts:770-779 | A closed client is changed by no message, ticket, retry or loss. |
| EventSnapshots.EveryRunShowsAPrefix | web/src/workspace-snapshot.ts:99-120 | In every run with committed snapshots that skip nothing but messages, `eventSeq`, nodes, edges and run are those of the in-order fold of the log's first `eventSeq` events. |
| EventSnapshots.StaysFoldedExactly | web/src/api.ts:622-674 | An idle client at the end of the log shows a prefix in every continuation if and only if its state is, messages aside, the fold at its `eventSeq` and the fold of the whole log. |
| EventSnapshots.CommitIsSafeExactly | web/src/workspace-snapshot.ts:99-120 | A snapshot of m events, older ones included, leaves every continuation showing a prefix if and only if the events after m up to the stream's end changed only messages. |
| EventSnapshots.ReachingSnapshotFits | web/src/workspace-snapshot.ts:99-120 | A snapshot that has reached the stream's sequence and the start of a catch-up in flight may be committed. |
| EventSnapshots.CommitLosesNoNoticeExactly | web/src/store-events.ts:82-104 | A commit leaves every notice up to the stream's sequence held if and only if no event between that sequence and the snapshot makes a notice that is not held yet. |
| EventSnapshots.EveryRunHoldsItsNotices | web/src/store-events.ts:82-163 | In every run whose snapshots skip no such event, the notice of every event up to the stream's sequence is held. |
| EventSnapshots.StartsHolding | web/src/api.ts:745-750 | A run begins on course with no notice missing. |
| EventSnapshots.StaleSnapshotSkips | web/src/api.ts:653-674 | A concrete run where a snapshot behind the stream makes the client skip the run's start. |
| EventSnapshots.SnapshotLosesANotice | web/src/store-events.ts:82-104 | A concrete run where a snapshot ahead of the stream lacks the recovery notice, and the event that makes it is ignored. |
| ManualEdit.PreviewEdits | web/src/workbench-edit-session.ts:260-406 | The loop over both representations computes the preview of the cloned canvas, or the first throw. |
| ManualEdit.Partition | web/src/workbench-edit-session.ts:26-54 | The loop collects the graph operations in order and the last move and resize of each id in first-seen order. |
| EditEffects.MoveEffect | web/src/workbench-edit-session.ts:277-284 | Moving sets the place of the node in both representations and changes nothing else. |
| EditEffects.ResizeEffect | web/src/workbench-edit-session.ts:285-292 | Resizing sets the size of the node in both representations and changes nothing else. |
| EditEffects.SemanticsEffect | web/src/workbench-edit-session.ts:293-300 | Setting semantics sets those of the workflow node and changes nothing else. |
| EditEffects.ParamEffect | web/src/workbench-edit-session.ts:301-312 | Setting a param sets that one, keeps what the node held under every other key, and updates the shown summary. |
| EditEffects.ConnectEffect | web/src/workbench-edit-session.ts:374-393 | Connecting appends one edge from `from` to `to` of the kind, in each representation that has none of its signature. |
| EditEffects.DisconnectEffect | web/src/workbench-edit-session.ts:394-402 | Disconnecting removes every edge of the signature and keeps the others in order. |
| EditEffects.RemoveEffect | web/src/workbench-edit-session.ts:366-373 | Removing a node takes it and the edges that touch it, and keeps all else in order. |
| EditEffects.SpawnEffect | web/src/workbench-edit-session.ts:313-365 | Spawning replaces all nodes of the id by one with the given fields, trimmed title and category, and adds an edge from the source as the lineage has it; a missing source or lineage throws. |
| EditEffects.LastParamIsHeld | web/src/workbench-edit-session.ts:260-405 | After a session a node holds the value of the last operation that set a key, if it was not spawned or removed since. |
| EditEffects.UntouchedParamIsHeld | web/src/workbench-edit-session.ts:260-405 | What no operation of a session sets, spawns or removes is there as it was. |
| EditSplit.SplitKeepsMeaningExactly | web/src/workbench-edit-session.ts:26-69 | Previewing the graph operations and then the collapsed layout equals previewing the session, if and only if the session throws or no surviving node was laid out and then spawned somewhere else. |
| EditSplit.SplitKeepsMeaning | web/src/workbench-edit-session.ts:26-69 | Sessions that spawn no id after laying it out split without change of meaning. |
| EditSplit.LateSpawnChangesMeaning | web/src/workbench-edit-session.ts:33-46 | A concrete session whose split previews differently. |
| EditSplit.SnapshotRoundTrip | web/src/workbench-edit-session.ts:26-69 | Partitioning a snapshot's layout operations gives the snapshot back, if and only if it has entries, no empty list and no repeated id. |
| EditInStep.PreviewStaysInStep | web/src/workbench-edit-session.ts:260-406 | A completed preview keeps ids, types and edges of both representations equal, node ids unique and signatures unrepeated. |
| EditInStep.RevisionIsDropped | web/src/workbench-edit-session.ts:429-451 | A previewed workflow graph keeps its schema version and has no catalog revision. |
| EditSignatures.AgreementLastsExactly | web/src/workbench-edit-session.ts:260-406 | Signatures of both representations agree after every session that completes, if and only if at the start each side has, for every edge of the other, one with that signature whose ends are among that edge's ends. |
| EditSignatures.SignatureDeterminesEdge | web/src/workbench-edit-session.ts:479-485 | Without separators in the ids, the signature determines the edge. |
| EditSignatures.PlainSessionsAgree | web/src/workbench-edit-session.ts:260-406 | If the edges at the start have no separators in their ids, agreement by signature lasts through any completed session. |
| EditSignatures.SignatureAgreementIsNotKept | web/src/workbench-edit-session.ts:366-373 | A concrete canvas with its nodes in step and no dangling edge where agreement by signature is lost by removing a node. |
| Snapshots.WorkspaceRequestScope.Begin | web/src/workspace-request-scope.ts:11-17 | Beginning starts a new generation for the workspace. |
| Snapshots.WorkspaceRequestScope.Adopt | web/src/workspace-request-scope.ts:19-23 | Adopting sets the workspace of the current generation and of no other. |
| Snapshots.WorkspaceSnapshotCoordinator.Refresh | web/src/workspace-snapshot.ts:82-97 | A request is refused, joined to the fetch in flight, or starts one. |
| Snapshots.WorkspaceSnapshotCoordinator.Reset | web/src/workspace-snapshot.ts:64-68 | Resetting forgets generation, fetch and what is owed. |
| Snapshots.WorkspaceSnapshotCoordinator.SetConnection | web/src/workspace-snapshot.ts:70-80 | Going live refreshes, except the first time in a generation. |
| Snapshots.WorkspaceSnapshotCoordinator.ApplySnapshot | web/src/workspace-snapshot.ts:99-120 | A fetched snapshot is committed only for the active generation and workspace, with no fetch owed, over a state of the same workspace. |
| Snapshots.WorkspaceSnapshotCoordinator.FinishRefresh | web/src/workspace-snapshot.ts:132-139 | A finished fetch starts the owed one, if its generation is still recorded. |
| Snapshots.StepKeeps | web/src/workspace-snapshot.ts:64-139 | Every step keeps: one fetch of the current generation, for the current workspace, and no accepted request forgotten. |
| Snapshots.EveryInterleavingIsFresh | web/src/workspace-snapshot.ts:64-139 | In every interleaving with fitting adoptions at most one fetch of the current generation is in flight, the coordinator's commits belong to the active generation and workspace and are no older than any accepted request, a load's commit is so if and only if no request was accepted before it, and every accepted request is served or owed a fetch. |
| Snapshots.OwedFetchStarts | web/src/workspace-snapshot.ts:132-139 | When the fetch in flight finishes, the owed one starts, later than every accepted request. |
| Snapshots.LiveTurns | web/src/workspace-snapshot.ts:70-80 | Going live is recorded the first time in a generation and is a refresh of the shown workspace afterwards. |
| Snapshots.RequestTurns | web/src/workspace-snapshot.ts:82-97 | A request for another workspace changes nothing; one while a fetch of the generation is under way owes another; otherwise a fetch starts. |
| Snapshots.AnswerCommitsExactly | web/src/workspace-snapshot.ts:99-120 | An answer is committed if and only if its generation and workspace are active, none is owed, and the shown state is of that workspace. |
| Snapshots.FinishTurns | web/src/workspace-snapshot.ts:132-139 | Finishing with none owed ends the refresh; finishing an older generation's fetch changes nothing. |
| Snapshots.ActivationTurns | web/src/workspace-request-scope.ts:11-23 | An activation is a new generation with nothing recorded; adopting gives the current generation its workspace and does nothing to another. |
| Snapshots.AdoptFitsExactly | web/src/workspace-request-scope.ts:19-23 | Adopting keeps the invariant if and only if it does not change the current generation's workspace while a fetch of it is in flight. |
| Snapshots.StoreAdoptionsFit | web/src/store.ts:109-114 | Adopting into a generation that began without a workspace never does. |
| Snapshots.LoadGoesBack | web/src/store.ts:126-132 | A concrete run where a workspace's own load replaces a newer snapshot. |
| Snapshots.AdoptingOverAWorkspaceLosesARequest | web/src/workspace-request-scope.ts:19-23 | A concrete run that loses an accepted request by adopting over a workspace. |
| Migration.KeysTellContextsApart | web/src/store-version-migration.ts:218-224 | Without NUL in workspace and version ids, keys are equal if and only if contexts are. |
| Migration.VersionMigrationStore.SetContext | web/src/store-version-migration.ts:65-103 | Switching context aborts the check and shows the pending, completed or idle state that belongs to it. |
| Migration.VersionMigrationStore.BeginInspect | web/src/store-version-migration.ts:105-111 | A check starts only with a context and no pending apply, under a new controller. |
| Migration.VersionMigrationStore.FinishInspect | web/src/store-version-migration.ts:115-123 | A finished check shows its report in its own context. |
| Migration.VersionMigrationStore.FailInspect | web/src/store-version-migration.ts:123-131 | A failed check shows its failure in its own context, unless it was aborted. |
| Migration.VersionMigrationStore.BeginApply | web/src/store-version-migration.ts:133-144 | The request reuses the pending operation id and report of the same context, and is not sent for another one. |
| Migration.VersionMigrationStore.FinishApply | web/src/store-version-migration.ts:145-166 | Success clears the pending apply and either delivers the state or keeps it for its context. |
| Migration.VersionMigrationStore.FailApply | web/src/store-version-migration.ts:167-200 | A definite refusal clears the pending apply; any other outcome keeps it as unknown. |
| Migration.VersionMigrationStore.HydrateCompleted | web/src/store-version-migration.ts:203-208 | A kept result is handed out once, and only in its own context. |
| Migration.StepKeeps | web/src/store-version-migration.ts:65-208 | Every step keeps the pending apply equal to the last undecided request and other contexts locked out. |
| Migration.EveryRunRepeatsTheOperation | web/src/store-version-migration.ts:65-200 | In every run, late checks that fit included, requests with no answer between them (a success, a status below 500, or 503 `MIGRATION_APPLY_DISABLED`) carry the same context key, operation id and report. |
| Migration.FailureKeepsTheApply | web/src/store-version-migration.ts:167-200 | A failed apply is kept as unknown, with context, id and report, if and only if there was no answer or a status of 500 and more other than 503 `MIGRATION_APPLY_DISABLED`. |
| Migration.FailureIsShown | web/src/store-version-migration.ts:167-200 | In its own context a 409 shows a conflict, another refusal a failure, anything else the unknown outcome; elsewhere the pending apply or nothing. |
| Migration.OnlyAnswersFreeTheOperation | web/src/store-version-migration.ts:133-200 | After an undetermined failure the next apply there repeats id and report; after an answer it takes a new check and a new id. |
| Migration.SuccessIsDeliveredOnce | web/src/store-version-migration.ts:145-166 | A success is shown in its own context; in another one it is kept and handed out once when its context is shown. |
| Migration.SwitchShows | web/src/store-version-migration.ts:65-103 | Showing a context shows the apply pending there, the lock of one pending elsewhere, or a clean slate or success. |
| Migration.SwitchHides | web/src/store-version-migration.ts:65-72 | Showing no context hides everything and forgets neither the pending apply nor a kept result. |
| Migration.CheckBegins | web/src/store-version-migration.ts:105-111 | A check begins only without a pending apply and clears what the last one showed. |
| Migration.CheckIsShown | web/src/store-version-migration.ts:112-131 | A check shows its report or failure in the context it was begun in and no other. |
| Migration.ApplySends | web/src/store-version-migration.ts:133-144 | Without a pending apply only a shown, migratable and enabled report is sent, under the new id. |
| Migration.LostApplyCanBeRetried | web/src/store-version-migration.ts:74-84 | Showing the context of a lost apply and applying sends the same operation again. |
| Migration.LateCheckFitsExactly | web/src/store-version-migration.ts:115-131 | A check that completes after its abort keeps the invariant if and only if its context is not shown, or no apply of another context is undecided. |
| Migration.LateCheckSendsASecond | web/src/store-version-migration.ts:115-144 | Where it does not, applying an applicable report sends a second operation while one is undecided. |
| Migration.LateCheckBreaksTheLock | web/src/store-version-migration.ts:115-131 | A concrete run where a check that completes after its abort lets a second context send. |
| CanvasParams.SafeCanvasValue | crates/agent/src/canvas_ops.rs:144-194 | The recursion over a mutable budget computes the specified projection and leaves the specified budget. |
| CanvasParams.SafeFields | crates/agent/src/canvas_ops.rs:158-171 | The loop over an object's fields stops when the items are spent and leaves out unbounded keys. |
| CanvasParams.SafeItems | crates/agent/src/canvas_ops.rs:173-182 | The loop over an array's items stops when the items are spent. |
| CanvasParams.SafeCanvasParams | crates/agent/src/canvas_ops.rs:136-142 | The projection starts at depth 0 with the full budget. |
| CanvasParams.SpendsExactly | crates/agent/src/canvas_ops.rs:144-194 | Values emitted besides depth markers equal the items spent, characters copied equal the text spent, and depth markers lie exactly at the limit. |
| CanvasParams.ProjectionIsBounded | crates/agent/src/canvas_ops.rs:136-194 | At most 12 values besides depth markers, at most 768 copied characters, at most five levels. |
| CanvasParams.ProjectionStandsFor | crates/agent/src/canvas_ops.rs:153-192 | Each emitted value stands for the input at the same place: secrets only as markers, texts only as leading parts of texts without secrets. |
| CanvasParams.CompleteWhileBudgetLasts | crates/agent/src/canvas_ops.rs:144-194 | As long as items and text are left in the end, every field and item above the depth limit is there and texts are cut at 240 characters only. |
| CanvasParams.DroppedExactly | crates/agent/src/canvas_ops.rs:158-171 | Exactly the fields are dropped whose key is longer than 64 or has a character besides letters, digits, `_`, `-` and `.`. |
| CanvasParams.MarkersStandFor | crates/agent/src/canvas_ops.rs:150-157 | A value is cut exactly when the depth limit is reached or the items are used up, and hidden exactly when it holds a secret. |
| CanvasParams.SmallParamsAreShown | crates/agent/src/canvas_ops.rs:136-194 | Parameters within every limit and free of secrets are shown unchanged. |
| CanvasParams.WidthIsUnbounded | crates/agent/src/canvas_ops.rs:150-152 | For every n some input is projected to n depth markers. |
| CanvasParams.RedactedGraphIsClean | crates/agent/src/canvas_ops.rs:255-289 | Redaction leaves no secret, changes a graph if and only if it holds one, and is idempotent. |
| CanvasParams.RedactionKeepsTopology | crates/agent/src/canvas_ops.rs:255-289 | Node ids, types, places, semantics and edges are untouched, and params differ only where something is hidden. |
| Redact.RedactTokenAfterPrefixes | crates/gateway/src/redact.rs:10-32 | The loop ends and computes the specified text. |
| Redact.RedactedIsMasked | crates/gateway/src/redact.rs:10-32 | In the output every occurrence of a listed prefix is followed by the mask and then a delimiter or the end. |
| Redact.KeptExactly | crates/gateway/src/redact.rs:10-32 | A text is unchanged if and only if every prefix in it is already masked. |
| Redact.RedactTwice | crates/gateway/src/redact.rs:10-32 | Masking is idempotent. |
| Redact.RedactsOnlyTokens | crates/gateway/src/redact.rs:10-32 | For all prefix lists, the output is the text with the token after every matched prefix replaced by the mask and all else as it was. |
| Redact.TokensEndAt | crates/gateway/src/redact.rs:22-24 | Of printable ASCII exactly the double quote, apostrophe, comma and closing brace end a token. |
| Redact.GatewayTextIsMasked | crates/gateway/src/redact.rs:7 | The four prefixes the gateway lists meet the conditions, so its output is masked and stable. |
| Html.EscapeIsOnePass | web/src/text-card-markdown.ts:140-146 | The chain of four replacements is one substitution, character by character. |
| Html.DecodeIsOnePass | web/src/text-card-markdown.ts:148-156 | For every text the chain of six replacements is one left-to-right pass over all six entities. |
| Html.DecodeUndoesEscape | web/src/text-card-markdown.ts:140-156 | Decoding an escaped text gives the text back. |
| Html.EntitiesAre | web/src/text-card-markdown.ts:140-156 | What each special character is written as and what each entity is read as. |
| Html.EscapedHasNoMarkup | web/src/text-card-markdown.ts:140-146 | Escaped text holds no angle bracket or double quote, and every ampersand in it starts an entity. |
| Html.DecodingAmpersandsFirstFails | web/src/text-card-markdown.ts:148-156 | Decoding ampersands before the others does not give every text back. |
| Html.EscapingAmpersandsLastFails | web/src/text-card-markdown.ts:140-146 | Escaping ampersands after the others yields a different text. |

## Left out

- Graph.ApplyAll: leaves out the `SpawnNode` operation, which the diff never emits and which needs the registry's lineage lookup.
- GraphBuilder.CompileStage: leaves out diagnostics and the detail of clarifications; the reason and the missing names are kept.
- GraphBuilder.Build: leaves out diagnostics, and semantic validation is an arbitrary function of the target.
- Compiler.Compile: leaves out diagnostics, and semantic validation is an arbitrary function of the target.
- EditInStep.PreviewStaysInStep: compares edges rather than signatures; `EditSignatures.AgreementLastsExactly` says when signatures suffice.
- EventStream.EventClient.Dispatch: leaves out the generation test and the refresh that an event may trigger; snapshots that commit are moves of `EventSnapshots`.
- EventStream.EventClient.MessageArrived: leaves out `ws.lagged`, presence and unparsable messages.
- EventStream.EveryRunFoldsAPrefix: covers the primary stream, because agent streams raise `eventSeq` with their own numbers (web/src/store-events.ts:251); its runs have no snapshots, which `EventSnapshots` adds.
- EventSnapshots.EveryRunShowsAPrefix: leaves messages to `EventSnapshots.EveryRunHoldsItsNotices`, and takes nodes, edges and run of a snapshot to be those of the log's first `eventSeq` events, although the server reads them one after another (crates/server/src/workspace_state.rs:71-118).
- EventSnapshots.StaysFoldedExactly: speaks of clients with nothing under way, whose stream is at the end of the log; what may be committed at other times is the condition `CommitFits`.
- EventSnapshots.CommitIsSafeExactly: speaks of the same clients.
- Migration.EveryRunRepeatsTheOperation: assumes that apply is not invoked while one is outstanding, and admits late checks under the condition of `Migration.LateCheckFitsExactly`.
- Redact.RedactedIsMasked: unlike `Redact.RedactsOnlyTokens` requires that no prefix lies inside another and that each holds a delimiter and no bracket; the four prefixes of the only call do.
- Redact.KeptExactly: is stated for the same prefix lists.
- Redact.RedactTwice: is stated for the same prefix lists.
- The replacement of the configured API key before token masking (crates/gateway/src/redact.rs:1-6).
- The credential heuristics of `canvas_ops.rs` are two arbitrary predicates; the limits on node and edge counts, titles and selections of the compact canvas only add filters.
- The capability resolver, node registry and catalog are parameters; the resolver answers for the capability it was asked about with a binding of the catalog, as the call sites expect. `validate_semantics` is an arbitrary function that may reject the target.
- The one-argument difference between `compile` and `compile_for_connector`: the connector preference is part of the resolver parameter.
- The texts of error messages; errors keep their cause.
- Coordinates are integers, so NaN and rounding of floating-point positions are not modelled.
- Message ids and notice texts are structured values instead of formatted strings, so two ids that differ only before formatting count as different.
- In `EventStream` the opening of the socket and its `open` event are one step; the reconnect delay, its attempt counter and jitter are left out, and errors of one socket are its loss.
- In `Snapshots` the fetched contents, the shown error texts and the edit session that survives a commit are left out; a fetch settles once and its `finally` comes in a later turn; a workspace is loaded before its first refresh is accepted.
- The persistence queue, presence expiry timers and action guard that `activateWorkspace` also resets.
- `appendManualEditInput` and the rest of the edit-session bookkeeping: pure list building.
- Markdown block and inline conversion in `text-card-markdown.ts`, which is driven by regular expressions.
- UTF-16 surrogate pairs: texts are sequences of characters, and the patterns replaced are ASCII.
