# ProtonWire verification

A Dafny model of the parts of ProtonWire whose correctness is spread over several functions or
threads, and proofs about it. `dafny verify dfyconfig.toml` checks the whole project.

## What is modelled

**The connection lane** (`Lane*.dfy`, `Pump*.dfy`, `Feed.dfy`). Any number of `connect`,
`disconnect` and `drain` calls, one event pump per connection and the engine threads run as one
step system. A step is one critical section, one publication, one engine attempt or one join; a
thread is a program counter with its locals. `Feed` is the engine's side of a connection,
`Pump` the pump thread, `Lane` the callers and the lane record. `LaneInvariant` states the
invariant behind all the fixed races, relative to the one caller that holds the current window;
`LaneStructure` and `LanePublishing` prove that every step keeps it; `LaneSafety`, `LaneDrain`,
`LaneDelivery`, `LaneAdmission`, `LaneProgress`, `LaneLiveness` and `LaneConvergence` draw the
consequences. `LaneWitness` and `RepeatWitness` hold runs that show where a property ends.
`LaneCell` and `PumpCell` are the mutable records as the daemon keeps them, each method tied to
the functions the step system uses.

A section under a mutex is one step; only a slot guard is held over several steps. Freedom from
deadlock is therefore relative to sections that end by themselves. `OneLockPerStep` is what makes
that sound: a section of the lane record neither changes nor depends on an existing slot, and no
other step touches the lane record.

The engine's push of a state is three separate steps, because the source does it in three: the
latest state is stored, then the queue is offered the event, then a refused event is counted. A
snapshot may therefore be read between the first two, recovery disarmed, and the same state
delivered once more: `RepetitionHappens` is such a run. So "exactly the states after the last
considered one" is not true of the code in general, and `DeliveryIsExact` says exactly when it
is: unless the last disarm met the sender still owing the considered state and no state was
handled since; never on a connection whose pump saw no drop. `RepetitionIsSilent`: the repeated
state publishes nothing.

An idle lane reads `Disconnected`, but only until a drain is requested: the drain's teardown and
a refused re-check publish nothing. `DrainMayLeaveConnected` and `DrainMayLeaveDisconnecting` are
runs whose drain leaves another state for ever. `DrainOutcome` says for every drain when it does:
`Disconnected` is left exactly if no step stranded another state, where a step strands one if a
drain empties a full slot while another state is published, or if a connect announces
`Disconnecting` with no announcement of the old pump to come and no re-check passes afterwards.
`DrainThatTookLeaves` reads this off the take of a drain that took an entry.

**The licence classifier** (`License*.dfy`, `Text.dfy`). The recursive-descent parser with its
moving cursor, a grammar with its own syntax trees and truth values (SPDX Specification 2.3,
Annex D.4), and a printer. Words of the text are lexed once into a token datatype; the source
compares the same words as strings. The verdict of a single id is an arbitrary function and the
accepted exception an arbitrary string, except in `LicensePrint`, where it is the source's.

**The dependency gate** (`DepGraph.dfy`, `DepGate.dfy`). The worklist with its parent map, the
routes read off it, the two rules, and the merging of package ids by name.

**The M49 snapshot** (`Csv*.dfy`, `M49*.dfy`). The CSV line parser against the record format of
section 2 of RFC 4180, the validating row loop, and the generator's independent extraction. The
pin table and the regional taxonomy are arbitrary; decoding bytes as UTF-8 is a parameter.

**Two run-level cores** (`Tui.dfy`, `RefreshDriver.dfy`). The terminal client's newest-wins cell
with its two threads, and the daemon's automatic-refresh driver, whose stop flag, due time and
clock answer every reading as they like.

The source documents `closure_routes` as breadth-first (xtask/src/deps.rs:315) but pops its
worklist from the end; the model follows the code and claims nothing about the length of routes.

## Model

| member | source | states |
|---|---|---|
| `Feed.MapTells` | apps/daemon/src/connect.rs:81-88 | The mapping of an engine state is the one published state that is Connected exactly for an engine that is up, Disconnected exactly for one that is down and Connecting exactly for one that is dialling |
| `PumpProofs.EngineStepDelivers` | crates/protocol/src/engine.rs:990-1124 | Every engine step (record, offer, count a drop, retain a fatal, exit) keeps the delivery invariant: order, no gap while in step, no fatal lost |
| `PumpProofs.InstallDelivers` | apps/daemon/src/connect.rs:337-365 | A connection may announce states before its pump starts; installing it keeps the delivery invariant |
| `PumpProofs.PumpStepDelivers` | apps/daemon/src/connect.rs:532-738 | Every pump step on an untaken connection keeps the delivery invariant, and the engine state considered last never goes backwards |
| `PumpProofs.ReconcileKeepsOrder` | apps/daemon/src/connect.rs:743-830 | Each of the three reads of a drop reconciliation, with the engine moving in between, leaves the undelivered states in order and without a gap when in step |
| `PumpProofs.Disarmed` | apps/daemon/src/connect.rs:613-622 | Disarming recovery on an empty queue exposes nothing older than the last published snapshot |
| `PumpConvergence.ComesCloser` | apps/daemon/src/connect.rs:532-738 | While the engine is quiet every pump step lowers a measure of what is in flight and what is left to reconcile |
| `PumpConvergence.DrainedIsCurrent` | apps/daemon/src/connect.rs:532-738 | A pump with nothing in flight, no unseen drop and recovery off decided last on the engine's latest state: what it remembers is Connected exactly if that state is up, Disconnected exactly if it is down, Connecting otherwise |
| `PumpConvergence.SettledIsCurrent` | apps/daemon/src/connect.rs:532-738 | If moreover nothing is retained and the engine lives, no certificate failure was raised |
| `PumpConvergence.TakenForCause` | apps/daemon/src/connect.rs:636-650 | The pump takes the connection from its slot only after a raised certificate failure or the engine's death |
| `PumpCell.PumpCell.constructor` | apps/daemon/src/connect.rs:533-540 | The pump starts with nothing published, no drop seen, recovery off and nothing pending |
| `PumpCell.PumpCell.Decide` | apps/daemon/src/connect.rs:697-701 | A state is published unless what was published last already tells it; afterwards what was published last tells it |
| `PumpCell.PumpCell.ReconcileDrops` | apps/daemon/src/connect.rs:743-830 | The reconciliation's early returns, its retained-fatal result, and locals and publication as the step system's count and snapshot stages leave them, against the feed each read meets |
| `PumpCell.PumpCell.HandleState` | apps/daemon/src/connect.rs:658-702 | A dequeued state is suppressed in recovery mode or behind a teardown and decided on otherwise, as the step system's handling does |
| `PumpCell.PumpCell.HandleEvent` | apps/daemon/src/connect.rs:657-737 | Where the loop goes on after each kind of event: a fatal to the claim, a suppressed state to the next receive, everything else to a reconciliation |
| `PumpCell.PumpCell.TakePending` | apps/daemon/src/connect.rs:542-551 | The event a probe caught comes before the queue, once |
| `PumpCell.PumpCell.ProbeQueue` | apps/daemon/src/connect.rs:613-622 | The zero-time probe disarms recovery only on a live, empty queue and otherwise holds the event back |
| `LaneStructure.StepKeepsStructure` | apps/daemon/src/connect.rs:244-489 | Every step of every thread keeps the structural invariant: flags are the holder's window, lane empty under a window, every connection where its slot says |
| `LanePublishing.StepKeepsInv` | apps/daemon/src/connect.rs:244-856 | Every step keeps the whole invariant, with what is published when idle, during a transition and by an untaken pump |
| `LanePublishing.OneHeld` | apps/daemon/src/connect.rs:133-153 | Two connections that are installed or in the holder's hands are the same one |
| `LaneSafety.RunInv` | apps/daemon/src/connect.rs:244-856 | The invariant holds in every state of every run |
| `LaneSafety.WindowExclusion` | apps/daemon/src/connect.rs:133-158 | A set flag has exactly one caller in its window, no two flags are set, a window means an empty and unowned lane, and owner and entry are present together |
| `LaneSafety.OnlyTheHolderClears` | apps/daemon/src/connect.rs:419-432 | A flag is cleared only by a step of the caller inside its window |
| `LaneSafety.AtMostOneLive` | apps/daemon/src/connect.rs:99-130 | At most one connection is live, none is disconnected twice, and the live one is installed or in the hands of the one caller in a window |
| `LaneSafety.TakenOnceAndForward` | apps/daemon/src/connect.rs:94-122 | Over any stretch of a run a taken connection stays with the party that took it, and the states its pump considers never go backwards |
| `LaneSafety.OneLockPerStep` | apps/daemon/src/connect.rs:262-292 | Every step: one that works on the lane record commutes with any change of any existing slot, and every other step commutes with any change of the lane record |
| `LaneSafety.JoinHoldsNothing` | apps/daemon/src/connect.rs:264-266 | A join changes only its own caller, and can be taken whatever the lane record and the slots are |
| `LaneSafety.TakingPublishesNothing` | apps/daemon/src/connect.rs:286-291 | Retire first: the step that empties a slot neither publishes nor changes the lane record |
| `LaneSafety.IdleMeansDisconnected` | apps/daemon/src/connect.rs:317-335 | Until a drain is requested, no entry and no flag means Disconnected is published |
| `LaneSafety.NoStaleRevert` | apps/daemon/src/connect.rs:643-702 | Once a slot is emptied its pump changes what is published at most to Disconnected, and not at all if a teardown emptied it |
| `LaneSafety.TransitionIsShown` | apps/daemon/src/connect.rs:281-292 | A replacing connect or a disconnect that won the connection shows Disconnecting from before it closes the connection until it has joined the pump |
| `LaneSafety.DrainedPumpIsCurrent` | apps/daemon/src/connect.rs:591-622 | With nothing in flight, no unseen drop and recovery off, Connected is published exactly if the engine's latest state is up, Disconnected exactly if it is down, and Connecting exactly if it is dialling |
| `LaneSafety.PublishedTellsConsidered` | apps/daemon/src/connect.rs:697-701 | While nobody has taken a connection, the published state tells the engine state its pump considered last |
| `LaneSafety.PumpPublishesOnlyTheTruth` | apps/daemon/src/connect.rs:636-702 | A pump step changes the published state to Connected only for an engine state that is up, to Connecting only for a dialling one, and to Disconnected only for one that is down or after taking the connection itself |
| `LaneDelivery.DeliveryIsExact` | apps/daemon/src/connect.rs:532-738 | With recovery off and no drop outstanding, hand, pending and queue carry exactly the states after the last considered one if and only if it is not the case that a disarm met the sender still owing that state and none was handled since; otherwise they start with it once more; never if the pump saw no drop |
| `LaneDelivery.RepetitionIsSilent` | apps/daemon/src/connect.rs:697-701 | Handling the repeated state publishes nothing and ends the repetition |
| `LaneDelivery.RunRepeats` | apps/daemon/src/connect.rs:532-738 | In every run, what a due repetition means for an untaken connection, in step or not |
| `LaneDelivery.DisarmingDecides` | apps/daemon/src/connect.rs:595-622 | After the disarming probe delivery is strict, if in step at all, exactly if the sender does not owe the considered state |
| `RepeatWitness.RepetitionHappens` | crates/protocol/src/engine.rs:1118-1125 | A run, with a queue filled and a state dropped, after which the considered state is in the queue with recovery off and no drop outstanding |
| `LaneSafety.FatalIsNotLost` | apps/daemon/src/connect.rs:769-776 | A raised certificate failure is queued, in hand, retained, with the sender, or already making the pump claim, until someone takes the connection |
| `LaneSafety.OwnerIsolation` | apps/daemon/src/connect.rs:72-77 | A lane installed for a uid is still that uid's at any later point unless in between it left by a call of that uid, a drain, or its own pump's claim |
| `LaneSafety.ForeignCallChangesNothing` | apps/daemon/src/connect.rs:249-261 | A connect or disconnect by another uid against an installed lane leaves the whole state as it was |
| `LaneSafety.FailedConnectLeavesNoOwner` | apps/daemon/src/connect.rs:322-335 | A connect that failed in the engine leaves no owner, no entry and no flag |
| `LaneSafety.DisconnectIsDone` | apps/daemon/src/connect.rs:406-434 | When a disconnect returns success, by tearing down or on an empty lane, no connection is live, no pump runs, the lane is empty and free, and Disconnected is published |
| `LaneAdmission.OwnerDisconnectIsAdmitted` | apps/daemon/src/connect.rs:385-406 | Without a drain, a disconnect by the uid a lane is installed for takes the entry, empties the lane and arms the window, for every uid |
| `LaneAdmission.DisconnectAdmissionExact` | apps/daemon/src/connect.rs:371-406 | A disconnect changes something exactly if no drain is requested and its uid owns the lane; otherwise it only ends |
| `LaneAdmission.ConnectAdmissionExact` | apps/daemon/src/connect.rs:245-280 | A connect of any uid is admitted exactly without a drain, without an open window and without another owner; it then holds the window over an empty lane and goes on to the entry it took or to its re-check; otherwise it only ends |
| `LaneAdmission.OwnerDisconnectCompletes` | apps/daemon/src/connect.rs:370-434 | In every behaviour that starves nobody, an admitted disconnect of the owner returns with its connection disconnected once, no pump running, the lane free and Disconnected published |
| `LaneAdmission.ConnectKeepsItsUid` | apps/daemon/src/connect.rs:244-365 | A connect goes on, through teardown, re-check and attempt, for the uid it was called with |
| `LaneAdmission.ConnectInstallsForItsCaller` | apps/daemon/src/connect.rs:337-365 | A connect called with a uid that returns success has installed its lane for that uid |
| `LaneSafety.ConnectInstalls` | apps/daemon/src/connect.rs:337-365 | When a connect returns success its connection is installed for the caller's uid and is the only live one, and no other pump runs |
| `LaneDrain.DrainIsFinal` | apps/daemon/src/connect.rs:439-489 | From the return of any drain call on, in every interleaving, nothing is live, installed, running or in a window, and the published state never changes |
| `LaneDrain.DrainFreezesPublication` | apps/daemon/src/connect.rs:477-479 | From the step by which a drain empties the slot, during its teardown and after it, the published state never changes |
| `LaneDrain.DrainOutcome` | apps/daemon/src/connect.rs:311-314 | From any drain's return on, Disconnected is published exactly if no step had stranded another state, or a re-check passed after the last that did |
| `LaneDrain.DrainThatTookLeaves` | apps/daemon/src/connect.rs:465-479 | If a drain came to take an entry, what is left is Disconnected exactly if the pump had the connection then or Disconnected was published then |
| `LaneDrain.StepKeepsVerdict` | apps/daemon/src/connect.rs:281-335 | Every step keeps the link between having been stranded and what is, or is about to be, published |
| `LaneWitness.DrainMayLeaveConnected` | apps/daemon/src/connect.rs:477-488 | A run after whose drain the empty lane reads Connected |
| `LaneWitness.DrainMayLeaveDisconnecting` | apps/daemon/src/connect.rs:281-314 | A run in which a refused re-check leaves Disconnecting and the drain finds the lane empty |
| `LaneProgress.PumpRankFalls` | apps/daemon/src/connect.rs:541-656 | Every step of a pump whose slot was emptied brings it closer to its exit |
| `LaneProgress.EmptiedPumpExits` | apps/daemon/src/connect.rs:541-656 | A pump whose slot was emptied exits by itself, beginning at most two further iterations of its loop |
| `LaneProgress.FewIterations` | apps/daemon/src/connect.rs:541-551 | However long it runs, such a pump begins at most one iteration, and one more if an event was held back |
| `LaneProgress.StepWorks` | apps/daemon/src/connect.rs:460-489 | For a call under way every step ends it or does not raise its remaining work, and a step of the actor it depends on lowers it |
| `LaneProgress.HelperCanStep` | apps/daemon/src/connect.rs:99-130 | No deadlock: the actor a waiting call depends on can step, or the pump inside its slot guard can |
| `LaneLiveness.UnderwayReturns` | apps/daemon/src/connect.rs:281-316 | In every behaviour that starves nobody, a call past its admission returns |
| `LaneLiveness.EveryCallReturns` | apps/daemon/src/connect.rs:244-489 | In every behaviour that starves nobody, every connect, disconnect and drain returns |
| `LaneConvergence.QuietEngineConverges` | apps/daemon/src/connect.rs:532-738 | From any reachable state, if the engine goes quiet, pump steps alone lead to the published state telling the engine's latest one, or to the pump's claim exactly if the engine died or raised a fatal |
| `LaneConvergence.EventuallyCurrent` | apps/daemon/src/connect.rs:532-738 | In every behaviour that starves nobody, once the engine of an untaken connection is quiet, someone takes the connection, or from some moment on for ever Connected, Disconnected or Connecting is published exactly as the engine's latest state is up, down or dialling; after a fatal or the engine's death it is taken |
| `LaneCell.LaneCell.constructor` | apps/daemon/src/connect.rs:132-153 | A new lane is empty, unowned and without a window |
| `LaneCell.LaneCell.AdmitConnect` | apps/daemon/src/connect.rs:245-280 | Which refusal is given when: another owner, then a drain, then the two windows, without a change; otherwise the whole new record, with the entry handed out |
| `LaneCell.LaneCell.Recheck` | apps/daemon/src/connect.rs:293-316 | Gives the window up when a drain has started, and otherwise keeps it and leaves the lane unowned |
| `LaneCell.LaneCell.Abandon` | apps/daemon/src/connect.rs:330-334 | Clears the reconnect window and nothing else |
| `LaneCell.LaneCell.Install` | apps/daemon/src/connect.rs:354-365 | Entry, owner and the end of the window in one section |
| `LaneCell.LaneCell.AdmitDisconnect` | apps/daemon/src/connect.rs:371-406 | Which refusal is given when: a drain, then the two windows, then another owner, without a change; otherwise the whole new record, with the entry handed out and the window armed only if there was one |
| `LaneCell.LaneCell.ClearDisconnecting` | apps/daemon/src/connect.rs:427-432 | Clears the disconnect window and nothing else |
| `LaneCell.LaneCell.TakeForDrain` | apps/daemon/src/connect.rs:460-476 | Waits while any window is open; otherwise checks and takes in one section |
| `LaneCell.LaneCell.ClearDraining` | apps/daemon/src/connect.rs:480-488 | Clears the drain's flag and nothing else |
| `LaneCell.LaneCell.RetireEntry` | apps/daemon/src/connect.rs:835-856 | A pump removes the entry and its owner only if the entry is its own |
| `License.RunOr` | xtask/src/license.rs:154-161 | The loop over OR terms, cursor and verdict, against the recursive reading |
| `License.RunAnd` | xtask/src/license.rs:164-171 | The loop over AND factors likewise |
| `License.RunPrimary` | xtask/src/license.rs:174-202 | A primary: parentheses, misplaced keywords, end of input, an id and its exception |
| `LicensePrint.RunClassify` | xtask/src/license.rs:135-151 | Normalising, splitting and parsing a text, with trailing tokens unrecognised |
| `LicenseGrammar.ValueNeedsAllIds` | xtask/src/license.rs:112-128 | A tree has a verdict exactly when every id in it is recognised |
| `LicenseGrammar.ValueIsTruth` | xtask/src/license.rs:112-128 | A tree's value is unrecognised exactly if some id is, and otherwise compatible exactly if the tree, read as a propositional formula over the compatible ids, is true, and incompatible exactly if it is false |
| `LicenseGrammar.OrComplete` | xtask/src/license.rs:154-202 | What the grammar derives, at any place of a token sequence, the parser reads to its end with the tree's value |
| `LicenseGrammar.OrSound` | xtask/src/license.rs:154-202 | From a verdict of the parser a syntax tree of exactly the tokens it read, with that value |
| `LicenseGrammar.ClassifyIsValue` | xtask/src/license.rs:135-151 | Whatever tree derives the tokens, the verdict is its truth as a propositional formula over the compatible ids, AND binding tighter than OR, and unrecognised exactly if some id is |
| `LicenseGrammar.ClassifyExact` | xtask/src/license.rs:135-202 | There is a verdict exactly when the whole token sequence derives from the grammar and every id is recognised |
| `LicensePrint.ClassifyTextExact` | xtask/src/license.rs:135-202 | On every text: a verdict exactly if the whole text derives from the grammar with recognised ids, and it is then the propositional truth of every tree that derives it |
| `LicensePrint.PrintThenClassify` | xtask/src/license.rs:135-202 | Printing a tree with parentheses only where precedence needs them and classifying the text gives the truth of the tree as a formula, or unrecognised exactly if some id is, with OR spelled out or as a slash |
| `LicensePrint.SlashIsOr` | xtask/src/license.rs:136-142 | In any text a slash and a spaced OR classify alike |
| `Text.SplitIsSpaced` | xtask/src/license.rs:143-143 | The words are the maximal runs without whitespace, in order, and nothing but whitespace is left out |
| `Text.WhitespaceIs` | xtask/src/license.rs:143-143 | Whitespace is exactly the 25 characters of the Unicode White_Space property |
| `DepGraph.Discover` | xtask/src/deps.rs:326-343 | The worklist ends, on cyclic graphs too, with exactly the nodes reachable without going on from the conduit, and parent chains that spell repeat-free routes |
| `DepGraph.Walk` | xtask/src/deps.rs:344-355 | The parent-chain walk ends and, turned around, is the route of its node |
| `DepGraph.ClosureRoutes` | xtask/src/deps.rs:321-356 | Keys are exactly the reachable nodes, and each comes with a path from the root, without a conduit before its end and without repeats |
| `DepGate.CheckClientSide` | xtask/src/deps.rs:370-387 | Reports nothing exactly if the package is present and no path from it ends in a deep crate; names its absence or every deep crate it reaches, each with a real route |
| `DepGate.CheckApp` | xtask/src/deps.rs:388-403 | For a present app, reports nothing exactly if every path to the IPC crate goes through the SDK, and otherwise names a real route around it |
| `DepGate.TransitiveForbiddenEdges` | xtask/src/deps.rs:367-405 | Reports nothing exactly if both rules hold of all paths; every report is justified by the graph and every breach is reported |
| `DepGate.ResolveAdjacency` | xtask/src/deps.rs:285-313 | An error exactly without a resolve graph; otherwise the graph whose nodes are the names of the resolved packages and whose edges are the dependencies between packages so called, every list strictly sorted |
| `DepGate.NamesAreTheLast` | xtask/src/deps.rs:290-294 | An id is named exactly if some package has it, and by the last package that does |
| `DepGate.DistinctIdsKeepNames` | xtask/src/deps.rs:290-294 | With distinct ids every package has its own name |
| `DepGate.CheckMetadata` | xtask/src/deps.rs:102-105 | On packages and resolve nodes: nothing reported exactly if every client-side package is resolved, no path of package names leads from one to a deep crate, and every path from an app to the IPC crate passes the SDK |
| `DepGate.MergedEdges` | xtask/src/deps.rs:297-308 | The merged graph has exactly the edges between names that some pair of named ids has |
| `DepGate.MergedNodes` | xtask/src/deps.rs:297-308 | A name is present exactly if some resolved id bears it |
| `DepGate.MergedPath` | xtask/src/deps.rs:280-284 | Every path of ids becomes a path of their names: merging only adds paths |
| `DepGate.AcceptanceCarriesOver` | xtask/src/deps.rs:280-313 | If the metadata is accepted, no path of package ids breaks either rule, by the names of its packages |
| `DepGate.SameEdgesSameVerdict` | xtask/src/deps.rs:308-311 | Sorting and deduplicating dependency lists does not change admissibility |
| `Text.SortDedup` | xtask/src/deps.rs:308-311 | The result is strictly sorted and holds the same strings |
| `Csv.RunQuoted` | xtask/src/m49.rs:566-581 | The quoted loop: doubled quotes, the closing quote and what is behind it, or no closing quote |
| `Csv.RunField` | xtask/src/m49.rs:564-607 | One field of either kind, where it ends and how the rest of the line goes on, or its error |
| `Csv.ParseCsvLine` | xtask/src/m49.rs:560-611 | The field loop, on every line, against the recursive reading |
| `CsvFormat.CsvRoundTrip` | xtask/src/m49.rs:560-611 | A record written with any admissible choice of quotes and doubled inner quotes parses back to its fields |
| `CsvFormat.AlwaysQuoting` | xtask/src/m49.rs:560-611 | Quoting every field round-trips for every non-empty list of fields |
| `CsvFormat.EveryLineHasAShape` | xtask/src/m49.rs:560-611 | Every line is a record, or ends in an unclosed quoted field, or has text behind a closing quote |
| `CsvFormat.ShapeDecides` | xtask/src/m49.rs:560-611 | The shape of a line determines the parser's answer |
| `CsvFormat.CsvExact` | xtask/src/m49.rs:560-611 | An answer is the parser's exactly if the line has a shape with that answer: the two errors are the two ways out of the format |
| `M49Run.CheckRow` | xtask/src/m49.rs:441-492 | The row checks report nothing exactly for a row in order |
| `M49Run.CheckFields` | xtask/src/m49.rs:441-492 | Each of the seven checks of a row is reported exactly if it fails |
| `M49Accept.CleanExactly` | xtask/src/m49.rs:420-497 | Rows scan clean exactly if every line parses to five fields with a known region code whose region is the row's, a code of three digits, one of two capital letters and a name that is not blank, and the ISO codes ascend strictly |
| `M49Accept.LinesExactly` | xtask/src/m49.rs:403-406 | The lines checked are the lines of the text, whether or not the last has its newline |
| `M49Accept.AcceptsExactly` | xtask/src/m49.rs:373-556 | For any table and taxonomy, exactly those files are accepted that end in a newline, hold no carriage return, are text, and consist of the header and at least 150 good rows that cover the taxonomy and carry the table's pins, all of them and no other code |
| `M49Accept.WrittenFileIsAccepted` | xtask/src/m49.rs:373-556 | The file written for any strictly sorted table of at least 150 pins with a fitting taxonomy is accepted and extracts to that table |
| `M49Accept.ExtractionExact` | xtask/src/groups_gen.rs:189-205 | On any lines the extraction succeeds exactly if every line that is not empty has five fields, and yields their ISO code, code and region row for row |
| `Text.LessIsLexicographic` | xtask/src/m49.rs:473-480 | Codes compare at the first difference, a prefix coming first |
| `Text.JoinSplit` | xtask/src/m49.rs:403-403 | No piece holds the separator, and joining the pieces gives the text back |
| `Text.SplitJoin` | xtask/src/m49.rs:403-403 | Splitting joined pieces gives the pieces back |
| `M49Run.ScanLine` | xtask/src/m49.rs:420-497 | One round of the row loop: its early reports of a blank, malformed or miscounted line, its updates of the seen codes, the previous code and the tally, against the fold; clean exactly while nothing was reported |
| `M49Run.ScanLines` | xtask/src/m49.rs:418-497 | The row loop against the fold over the data lines |
| `M49Run.CheckRegions` | xtask/src/m49.rs:505-511 | Exactly the counted regions without a row are reported |
| `M49Run.CheckMissing` | xtask/src/main.rs:248-257 | Exactly the pinned codes that were not seen are reported |
| `M49Run.CheckForeign` | xtask/src/main.rs:248-257 | Exactly the seen codes that are not pinned are reported |
| `M49Run.CheckPins` | xtask/src/m49.rs:539-553 | Nothing is reported exactly if every seen country has its pinned code and region, and each wrong one is named |
| `M49Run.VerifyLines` | xtask/src/m49.rs:403-556 | The verifier behind decoding: no violation exactly for acceptable lines; counted are exactly the regions of the taxonomy and those that have a row, each with its number of rows |
| `M49Run.VerifyCsv` | xtask/src/m49.rs:373-556 | No violation exactly for a good file, stated on its bytes, lines and fields; the tally counts exactly the regions of the taxonomy and those that have a row, each with its number of rows, in every case |
| `M49.ScanCounts` | xtask/src/m49.rs:493-496 | The tally is the number of well-formed rows of each region, whatever else is wrong |
| `M49.ScanKeys` | xtask/src/m49.rs:378-380 | Counted are exactly the regions of the taxonomy and those that have a row |
| `M49.CleanScan` | xtask/src/m49.rs:418-497 | A scan without a violation has read every line and recorded exactly the codes of those lines |
| `M49.CleanScanIsSorted` | xtask/src/m49.rs:473-480 | Without a violation the codes ascend strictly over the whole file, not only row by row |
| `M49.AcceptedRows` | xtask/src/m49.rs:513-553 | The data lines of an accepted file are the pinned table, row for row |
| `M49.AcceptDeterminesExtract` | xtask/src/groups_gen.rs:189-205 | If the verifier finds nothing, extraction of the same bytes cannot fail and is the pinned table in order, for any strictly sorted table |
| `M49Run.CountryRows` | xtask/src/groups_gen.rs:189-205 | The extraction loop with its error returns, against the recursive reading |
| `M49Run.GenerateRows` | xtask/src/groups_gen.rs:141-152 | Rows are extracted exactly if the two other gates report nothing and the file is good, and are then the pinned table |
| `Tui.SnapshotSlot.Publish` | apps/tui/src/main.rs:90-92 | Publishing into the cell is the worker's publication step of the step system |
| `Tui.LoopState.constructor` | apps/tui/src/main.rs:442-449 | A new loop state is that of the step system's loop start, which may come after the first publication |
| `Tui.LoopState.DrainOnce` | apps/tui/src/main.rs:547-549 | One round of the drain on cell and loop state is the take step of the step system, and goes on exactly if there was something to take |
| `Tui.LoopState.CurrentView` | apps/tui/src/main.rs:475-482 | The view computed from the fields is the frame the step system draws |
| `Tui.LoopState.DrawFrame` | apps/tui/src/main.rs:543-553 | Drain loop and draw on the mutable pieces continue any run they stand in, and an uninterrupted frame shows the last publication |
| `Tui.StepKeepsInv` | apps/tui/src/main.rs:353-374 | Every step of worker, loop and clock keeps: stamps ascend, the held snapshot is a published one, an empty cell means none is newer |
| `Tui.RunInv` | apps/tui/src/main.rs:535-560 | That invariant in every state of every run |
| `Tui.NewestWins` | apps/tui/src/main.rs:543-553 | For every draw of every run there is an empty take before it, ending its drain, such that the frame shows the snapshot published last at that take, and is stale exactly if the limit has passed since that fetch, or since the start if nothing was published |
| `Tui.FramesGoForward` | apps/tui/src/main.rs:535-560 | Drawn frames never go back in publication or fetch time, each by the publications it had seen |
| `Tui.ReadyAfterEmptyTake` | apps/tui/src/main.rs:547-553 | A loop that is ready to draw got there by an empty take and has held the same snapshot since |
| `Tui.EmptyTakeCounts` | apps/tui/src/main.rs:547-549 | At an empty take the loop holds the most recent publication |
| `Tui.PublicationIsStamped` | apps/tui/src/main.rs:363-365 | Every publication is the snapshot some fetch returned, with the clock of the stamp taken after that fetch |
| `RefreshDriver.WaitOut` | apps/daemon/src/lib.rs:389-407 | The slicing inner loop against the trace of readings and actions |
| `RefreshDriver.DriveRefreshes` | apps/daemon/src/lib.rs:375-440 | The driver's loop against the trace, on every script of answers |
| `RefreshDriver.DriverIsWellBehaved` | apps/daemon/src/lib.rs:375-440 | Under any clock a refresh comes right after a reading showing it due or never fetched, and a sleep right after one showing time remaining, for at most a slice and at most that time |
| `RefreshDriver.EveryActionFollows` | apps/daemon/src/lib.rs:384-440 | What follows each action, for any flag, due time and clock: an outer reading that shows due is followed by a refresh, an inner one that shows time remaining by a sleep of the smaller of that time and half a second, a check that reads stop ends its loop |
| `RefreshDriver.StoppedDoesNothing` | apps/daemon/src/lib.rs:384-396 | A driver about to check a flag that stays set does nothing but check it |
| `RefreshDriver.NothingAfterStop` | apps/daemon/src/lib.rs:384-440 | For any flag and clock: after either loop has seen the flag set the driver reads, sleeps or refreshes again if and only if the outer loop later reads it clear |
| `RefreshDriver.WorkAfterStopNeedsItTakenBack` | apps/daemon/src/lib.rs:384-440 | For any flag: between seeing it set and any later reading, sleep or refresh, the outer loop has read it clear |
| `RefreshDriver.FlagThatIsTakenBack` | apps/daemon/src/lib.rs:384-407 | A script on which the flag is seen set, taken back, and a refresh follows |

## Left out

- The engine, the TUN device and the tunnel library behind the engine's callbacks: an engine attempt succeeds or fails as it likes, and an engine announces whatever it likes.
- Poisoned mutexes, panics, failing thread spawns, and the pump's exit when its lane is dropped without a drain (apps/daemon/src/connect.rs:579-584).
- Waiting itself: the receive timeout and the drain's sleep are steps that become possible, not durations. Installing an entry and starting its pump are one step.
- Each connection's engine announces from one thread at a time, so its pushes do not overlap each other; the 64-bit drop counter is unbounded.
- Retained control events other than a certificate failure: the daemon only logs them.
- LaneSafety.IdleMeansDisconnected: holds until a drain is requested, because the draining refusal and the drain's teardown publish nothing; `LaneDrain.DrainOutcome` says exactly what is left after a drain.
- LaneLiveness.EveryCallReturns: assumes that neither the locks nor the scheduler starve a thread that can go on again and again, which the source relies on too.
- DepGate.CheckMetadata: models the transitive rule of the dependency check only, without direct edges, UI placement and lockfiles.
- M49Run.GenerateRows: takes the reports of the golden-table gate and the taxonomy gate as parameters.
- DepGraph.ClosureRoutes: does not claim shortest routes, because the worklist is a stack.
- The literal licence allowlist, the 247-row country table and the regional taxonomy: arbitrary here.
- UTF-8 decoding is a parameter of the snapshot model; both readers of the file use the same one.
- Message wording, order of messages between rules, logging, command line, drawing, key handling, signal handling and sockets.
- The refresh worker's sleep between fetches and its shutdown: when it wakes and stops is arbitrary.
- The scheduler behind the refresh driver, the selection core and the stores; manifest, golden-table and schema checks; direct dependency edges, UI placement and lockfile rules.
