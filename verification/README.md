# Buzz: protocol and tooling models

A Dafny model of the parts of Buzz whose behaviour is hardest to see from the code: the agent
client's turn engine, the control frames that steer and cancel a turn, layered configuration, the
contact-decision handshake, and four pieces of tooling (the Rust sanitiser, the Redis reader, staging
restore and verify, and the audio tap). `dafny verify dfyconfig.toml` checks all of it.

**How it is built.** Each stateful part has a specification made of functions (what one step, one call or
one run does), lemmas about that specification over every run, and a class or method in the
source's own imperative form whose contract says that it computes the specification. The lemmas therefore
speak about the imperative code.

**The turn engine.** `turn_loop.dfy` is the read loop as a step function. One input is one pass:
the time that goes by, the arm the select picked, and the fate of the write that arm makes (delivered, broken, or
the caller gone). The select is an arbitrary choice, so every statement holds whichever arm wins. A script that ends
is a caller that drops the turn. `turn_settlement.dfy`, `turn_deadlines.dfy`, `turn_silence.dfy`, `turn_routing.dfy`,
`turn_wire.dfy` and `turn_provenance.dfy` prove what every run keeps; `acp_calls.dfy` adds prompts, plain requests and
the two cancels, `acp_lifecycle.dfy`, `acp_permissions.dfy` and `acp_wire.dfy` what every sequence of calls
keeps and writes, and `acp_client.dfy` is the client object.

**Control.** `steer_control.dfy` validates frames, classifies answers, and says what a status proves within one turn.
`steer_system.dfy` puts handler, channel, loop and watchers together and proves that each frame is answered once;
`steer_honesty.dfy` proves what each emitted result says about the whole history behind it.
`cancel_control.dfy` is the cancel handler over a task map and a queue.

**Configuration.** `deep_merge.dfy` (merge and Codex configuration), `channel_filters.dfy` (the two
filter resolvers).

**Tooling.** `rust_sanitizer.dfy`, `rust_tokens.dfy` and `module_ranges.dfy`, `resp.dfy`, `contact_decision.dfy`,
`staging.dfy` with `staging_safety.dfy` and `staging_programs.dfy`, `worklet.dfy`.

**Where code and comments differ, or a wish is not quite true.**

- The comment at `crates/buzz-acp/src/acp.rs` lines 1804-1805 promises a neutral ack on every return path. The exits through a failed
  write or a request without an id drop the sender instead: `SenderCanBeLost` shows one, and `SenderDroppedExactlyWhen`
  says exactly which passes do. What holds on every path is that a request is settled once.
- A permission request that is still owed its reply is lost when a later prompt or plain request reads another one:
  `ReplyCanBeLost` shows it, `OwedReplyIsLostExactlyWhen` gives the condition, and `CarefulCallersLoseNothing` the rule a
  caller can follow.
- A cancel frame whose channel does not parse is ignored without a result; the statements about cancel outcomes
  are about the others.
- `deep_merge` is not associative: `NotAssociative` shows it and `AssociativeExactlyWhen` says for which layers it is.
  What holds at every path, for any number of layers, is `StackedLeaf`.
- A contact decision can be queued twice if the claims registry is poisoned: `PoisonedRegistryQueuesTwice` shows it, and
  `TimesQueuedExactly` says how often a decision is queued, from the deliveries alone.
- A restore that was cut after it replaced the state file but before the directory was synced can be undone by a
  power cut. The file then vouches for the older baseline again, rightly, since nothing else had been touched.
  `RestoreCommitsAtItsFirstWrite` gives the exact point from which a restore counts.
- The audio tap fails on blocks longer than 960 samples only for some buffer positions; `BlockBoundIsExact`
  shows that 960 is the largest size that is safe for all of them.

## Model

| member | source | states |
|---|---|---|
| `TurnSettlement.PassConserves` | crates/buzz-acp/src/acp.rs:1844-2405 | one pass adds to the settlements plus the steer in flight exactly the request it takes from the channel, for every ticket |
| `TurnSettlement.SettledExactlyOnce` | crates/buzz-acp/src/acp.rs:1806-2352 | over every script, including one cut off by the caller, the settlements of a ticket at the end are those at the start plus the times it was taken: a request taken once is settled once, by one ack or by its dropped sender |
| `TurnSettlement.ExitSettlesPending` | crates/buzz-acp/src/acp.rs:2067-2113 | a returning turn returns in one identifiable pass, and the steer then in flight gets the neutral ack on a timeout, end of stream, codec error or prompt response, and loses its sender exactly on a failed write, a request without an id, or a dropped call |
| `TurnSettlement.PassLog` | crates/buzz-acp/src/acp.rs:1844-2405 | the settlement log and the set of dispatched tickets only grow |
| `TurnSettlement.SettlementsArePermanent` | crates/buzz-acp/src/acp.rs:1806-2352 | no run takes back a settlement or a dispatch mark |
| `TurnSettlement.SenderDroppedExactlyWhen` | crates/buzz-acp/src/acp.rs:2357-2405 | with a steer in flight, a pass drops its sender if and only if it reaches the select and handles an agent request whose reply is not delivered, a permission request without an id, a question without an id while none is open, or a user answer that is not delivered |
| `TurnSettlement.SenderCanBeLost` | crates/buzz-acp/src/acp.rs:2370-2371 | the promise of a neutral ack on every return fails at an input: a steer is written, a permission request without an id arrives, and the turn returns with the sender dropped |
| `TurnDeadlines.PassDeadline` | crates/buzz-acp/src/acp.rs:2278-2305 | a pass moves the hard deadline exactly when it renews the budget (goose success, `injected`, an answered question), then to no more than now plus the maximum, never back; the stored copy follows |
| `TurnDeadlines.HardDeadlineOverRun` | crates/buzz-acp/src/acp.rs:1783-2405 | over every run the hard deadline never moves back, never exceeds now plus the maximum duration, stays put without a renewal, and equals the copy kept for a later cancel |
| `TurnDeadlines.LateLoopReturns` | crates/buzz-acp/src/acp.rs:1820-1858 | with no question open, a loop whose clock has reached a deadline returns in the very next pass, and the error kind names the earlier deadline |
| `TurnDeadlines.NoStarvation` | crates/buzz-acp/src/acp.rs:1820-1866 | if the clock reaches the hard deadline during a pass, at any point of any run, and that pass neither renews it nor leaves a question open, it is the last to complete: the next returns, whatever is ready, with the error that names the earlier deadline |
| `TurnDeadlines.OverrunsAtMostOnce` | crates/buzz-acp/src/acp.rs:1820-1866 | over every script at most one pass completes past the hard deadline in force |
| `TurnDeadlines.PassTimeouts` | crates/buzz-acp/src/acp.rs:1820-1858 | a pass returns a timeout only when the deadline named by the error had passed |
| `TurnDeadlines.TimeoutsAreReal` | crates/buzz-acp/src/acp.rs:2067-2083 | a run that ends in a timeout ends in a pass where no question was open, the named deadline had passed and the other was not earlier |
| `TurnDeadlines.OpenQuestionHoldsClocks` | crates/buzz-acp/src/acp.rs:1863-2083 | while a question is open no pass times out, however late it is |
| `TurnDeadlines.HardTimeoutIsNeverEarly` | crates/buzz-acp/src/acp.rs:2067-2083 | a hard timeout never comes before the deadline the turn started with |
| `TurnDeadlines.RunSplit` | crates/buzz-acp/src/acp.rs:1806-2405 | a run over a script is the run over its first part followed by the run over the rest |
| `TurnSilence.PassSilence` | crates/buzz-acp/src/acp.rs:2145-2156 | a pass restarts the silence clock, a full idle timeout from the reading of its arm or later, exactly if it reads a frame or delivers an answer; blank lines, garbage, steers, refused answers and timers leave it where it was |
| `TurnSilence.IdleTimeoutAfterStart` | crates/buzz-acp/src/acp.rs:1806-1858 | an idle timeout comes at least the idle timeout after the turn began |
| `TurnSilence.IdleTimeoutIsNeverEarly` | crates/buzz-acp/src/acp.rs:2145-2156 | in every run that ends in an idle timeout, every pass that read a frame or delivered an answer did so at least the idle timeout before the end; the silence a hard timeout reports holds no such pass |
| `TurnSilence.TimeoutSays` | crates/buzz-acp/src/acp.rs:1840-1858 | a hard timeout reports the time since the last sign of life, an idle timeout the allowance that ran out |
| `TurnSilence.ToolCallIsActivity` | crates/buzz-acp/src/acp.rs:2512-2560 | a tool call counts as activity until its handling is over |
| `TurnSilence.QuietPostponesNothing` | crates/buzz-acp/src/acp.rs:2115-2140 | over every stretch without a sign of life, however many lines and steers it holds, no silence or tool deadline moves |
| `TurnSilence.SilenceEndsTheTurn` | crates/buzz-acp/src/acp.rs:1820-1858 | after a sign of life and then only quiet passes, once the idle timeout and the tool allowance are behind, the next pass returns a timeout |
| `TurnSilence.MuteAgentTimesOut` | crates/buzz-acp/src/acp.rs:1820-1858 | an agent that sends nothing readable, from the clock readings of the inputs alone: the turn goes on while less than the idle timeout has passed and has returned `IdleTimeout` by the first pass that starts with it behind |
| `TurnRouting.PassRouted` | crates/buzz-acp/src/acp.rs:1967-1986 | a pass keeps written request ids strictly increasing and below the next id, and the steer in flight on the wire under an id newer than the prompt |
| `TurnRouting.RunRouted` | crates/buzz-acp/src/acp.rs:1007-1009 | the same over every script, together with: the wire only grows and the prompt id stays |
| `TurnRouting.NoFrameAnswersBoth` | crates/buzz-acp/src/acp.rs:2157-2352 | at no point of any run does a frame answer both the steer in flight and the prompt |
| `TurnRouting.MethodIsNeverAResponse` | crates/buzz-acp/src/acp.rs:2157-2165 | a frame that carries `method` neither ends the turn with a result nor settles the steer, even when its id matches |
| `TurnRouting.PromptResultIsItsOwn` | crates/buzz-acp/src/acp.rs:2338-2352 | the turn ends with a result or the agent's error exactly for a response frame with the prompt id, and returns that frame's error member if it has one and its result member otherwise |
| `TurnRouting.SteerAnswerIsItsOwn` | crates/buzz-acp/src/acp.rs:2165-2337 | while the turn goes on, a steer leaves flight exactly through a response frame with its own id |
| `TurnWire.PassWrites` | crates/buzz-acp/src/acp.rs:1911-2405 | a pass writes exactly what it owes: one reply of the right kind under the id of an agent request, one steer request under the next id and the method its target and capabilities select, one answer to the open question, and nothing else |
| `TurnWire.RunWrites` | crates/buzz-acp/src/acp.rs:1783-2411 | over every script the wire is the old wire and then, in order, what each pass owed it |
| `TurnWire.DeafRunOnlyReplies` | crates/buzz-acp/src/acp.rs:1783-2411 | a loop without a steer receiver writes replies and nothing else |
| `TurnWire.ResultComesFromItsFrame` | crates/buzz-acp/src/acp.rs:2338-2352 | a run returns a result, or the agent's error, only from a frame that answers its prompt, and returns what that frame says |
| `TurnWire.ResultEndsTheRun` | crates/buzz-acp/src/acp.rs:2338-2352 | the first such frame that is read ends the run with what it says |
| `TurnWire.SuccessExactlyWhen` | crates/buzz-acp/src/acp.rs:2165-2337 | a steer succeeded if and only if the answer is no error and: goose answered; the extension says `injected` or `startedNewTurn`; or a strict answer echoes both identities with `appended` |
| `TurnWire.ErrorAnswerMeans` | crates/buzz-acp/src/acp.rs:2165-2205 | an error answer is passed on with its code, or as a rejection when strict, and renews nothing |
| `TurnWire.UpdateNamesTheRun` | crates/buzz-acp/src/acp.rs:2512-2643 | an update that names the run makes it the one in progress, null clears it, anything else leaves it |
| `TurnWire.OnlyUpdatesNameTheRun` | crates/buzz-acp/src/acp.rs:2357-2405 | nothing but a session update touches the run in progress |
| `TurnWire.TakenFares` | crates/buzz-acp/src/acp.rs:1911-1998 | whenever the channel is open and nothing is in flight a request is taken, and is at once refused for what is missing, sent, told that its write failed, or dropped with the caller |
| `TurnWire.QuestionIsAlwaysHeld` | crates/buzz-acp/src/acp.rs:2413-2490 | at every point of every turn the open question is the one the client would have to answer on a cancel |
| `TurnWire.QuestionOpens` | crates/buzz-acp/src/acp.rs:2373-2391 | a question put to the user is open from then on, and remembered |
| `TurnWire.AnswerIsGivenOnce` | crates/buzz-acp/src/acp.rs:2001-2064 | an answer is given once: whether or not its write gets through, no later cancel answers that question again |
| `TurnProvenance.PassEntry` | crates/buzz-acp/src/acp.rs:1874-2405 | a pass adds at most one settlement, for a request it took and could not send or for the steer in flight, with the reason given |
| `TurnProvenance.PassTakes` | crates/buzz-acp/src/acp.rs:1911-1998 | a pass puts a request in flight only if it took it, session, turn and capability allowed it, and the write under the next id succeeded |
| `TurnProvenance.PendingOrigin` | crates/buzz-acp/src/acp.rs:1967-1986 | the steer in flight at any point of a run was put there by an identifiable earlier pass |
| `TurnProvenance.EntryOrigin` | crates/buzz-acp/src/acp.rs:1806-2352 | each entry of the final settlement log is traced to the pass that made it and its reason, or to the drop of the turn |
| `TurnProvenance.DispatchOrigin` | crates/buzz-acp/src/acp.rs:1967-1986 | a dispatch mark is traced to the pass that took and wrote the request |
| `AcpLifecycle.PromptLifecycle` | crates/buzz-acp/src/acp.rs:987-1056 | a prompt that timed out or was dropped stays in flight with its id and a deadline at least the original one and at most now plus the maximum; every other end closes it, and the saved budget is at most the maximum |
| `AcpLifecycle.CancelLifecycle` | crates/buzz-acp/src/acp.rs:1451-1530 | a cancel consumes the prompt id it finds, whatever becomes of its writes and its drain |
| `AcpLifecycle.RpcLifecycle` | crates/buzz-acp/src/acp.rs:1564-1755 | a plain request keeps the client sound and leaves the prompt id alone |
| `AcpLifecycle.CallIsSound` | crates/buzz-acp/src/acp.rs:987-1530 | each call keeps the invariant, and an id a cancel consumed cannot come back |
| `AcpLifecycle.AlwaysSound` | crates/buzz-acp/src/acp.rs:987-1530 | over every sequence of calls a prompt in flight has a stored deadline and request ids on the wire strictly increase |
| `AcpLifecycle.EachPromptCancelledOnce` | crates/buzz-acp/src/acp.rs:1451-1462 | over every sequence of calls the ids consumed by cancels strictly increase: no prompt is consumed twice |
| `AcpLifecycle.CleanupInheritsDeadline` | crates/buzz-acp/src/acp.rs:1391-1421 | in every reachable state a cancel of a prompt in flight has a stored deadline, so the no-deadline fallback is dead, and runs to max(stored, now + 30 s) |
| `AcpLifecycle.DrainKeepsItsDeadline` | crates/buzz-acp/src/acp.rs:1512-1529 | the drain of a cancel reports the hard clock only once its deadline has passed |
| `AcpLifecycle.IdleCancelWritesNothing` | crates/buzz-acp/src/acp.rs:1456-1462 | a cancel with no prompt in flight fails, writes nothing and changes nothing but the taken deadline |
| `AcpLifecycle.GraceNeverHardTimeout` | crates/buzz-acp/src/acp.rs:1435-1449 | the grace variant never reports the hard cap: where the drain runs into its deadline it reports that, with the grace it was given, and otherwise returns what the drain returns |
| `AcpWire.PromptWrites` | crates/buzz-acp/src/acp.rs:987-1032 | a prompt writes its own request under the next id, then what its loop owes; if that first write fails, nothing |
| `AcpWire.PromptReturnsItsResult` | crates/buzz-acp/src/acp.rs:1025-1056 | a prompt returns a result only from a frame that answers the id it was sent under |
| `AcpWire.SavedBudgetIsWhatIsLeft` | crates/buzz-acp/src/acp.rs:1037-1043 | the saved budget is the stored deadline less the clock, or zero; the deadline is the original one unless something renewed it |
| `AcpWire.FailedPromptForgetsItsQuestion` | crates/buzz-acp/src/acp.rs:1048-1069 | a prompt that fails otherwise than by a timeout forgets its open question; one that timed out keeps it for the cancel |
| `AcpWire.CancelWrites` | crates/buzz-acp/src/acp.rs:1451-1530 | a cancel of a prompt in flight whose writes get through appends the owed permission reply, the owed question reply, exactly one `session/cancel` for its session, and after that replies only; one cut before that sends no notice and returns no result |
| `AcpWire.CancelReturnsItsPrompt` | crates/buzz-acp/src/acp.rs:1508-1529 | a cancel returns a result only from a frame that answers the prompt it consumed |
| `AcpWire.EitherCancelNotifies` | crates/buzz-acp/src/acp.rs:1391-1449 | both of these for the ordinary and the grace cancel |
| `AcpWire.CancelPaysItsDebts` | crates/buzz-acp/src/acp.rs:1478-1506 | with nothing read in its drain, a cancel that gets through leaves nothing owed |
| `AcpWire.MuteDrainTimesOut` | crates/buzz-acp/src/acp.rs:1512-1529 | the drain gives a mute agent 30 seconds, from the readings of its inputs alone |
| `AcpWire.DrainNeverGainsTime` | crates/buzz-acp/src/acp.rs:1517-1529 | at no point does the drain have more time before it than when it began, however often questions renew it |
| `AcpWire.RpcWrites` | crates/buzz-acp/src/acp.rs:1564-1606 | a plain request writes itself under the next id, then the replies owed while it waits |
| `AcpWire.RpcReturnsItsResult` | crates/buzz-acp/src/acp.rs:1707-1717 | a plain request returns a result only from a frame that answers its id |
| `AcpWire.UnansweredRpcTimesOut` | crates/buzz-acp/src/acp.rs:1590-1606 | a plain request that is never answered ends in its own time limit |
| `AcpPermissions.TurnBalances` | crates/buzz-acp/src/acp.rs:2720-2761 | over every run of the loop, replies given plus replies owed for an id grow by the requests asked under that id, less an owed one displaced by a later request |
| `AcpPermissions.RpcBalances` | crates/buzz-acp/src/acp.rs:1728-1731 | the same while a plain request is waiting |
| `AcpPermissions.CancelBalances` | crates/buzz-acp/src/acp.rs:1478-1489 | the same across a cancel, whose first write pays what is owed |
| `AcpPermissions.CallBalances` | crates/buzz-acp/src/acp.rs:987-1530 | the same for every call |
| `AcpPermissions.EveryRequestIsAccountedFor` | crates/buzz-acp/src/acp.rs:1478-1489 | over every sequence of calls, replies written plus the one still owed plus those displaced equal the requests asked, id by id |
| `AcpPermissions.AbandonedPromptIsAnsweredByCancel` | crates/buzz-acp/src/acp.rs:1478-1489 | a prompt ended or abandoned in any way, then a cancel with any drain: replies written plus the one still owed equal the requests asked meanwhile, id by id, and a cancel that is not itself cut off in a write leaves none owed: exactly one reply each |
| `AcpPermissions.OwedReplyIsLostExactlyWhen` | crates/buzz-acp/src/acp.rs:2720-2761 | a call made while a reply is owed loses that reply if and only if it is a delivered prompt or plain request that reads another permission request |
| `AcpPermissions.CarefulCallersLoseNothing` | crates/buzz-acp/src/acp.rs:1478-1489 | if no prompt and no plain request is made while a reply is owed, nothing is displaced: over every such sequence each request has its one reply or is the one still owed |
| `AcpPermissions.ReplyCanBeLost` | crates/buzz-acp/src/acp.rs:2720-2761 | without that rule a reply is lost at an input: a prompt abandoned before its reply is written, then a prompt that is asked again; the first request is neither answered nor owed |
| `AcpClients.AcpClient.constructor` | crates/buzz-acp/src/acp.rs:549-683 | a spawned client has nothing in flight, nothing stored and nothing written |
| `AcpClients.AcpClient.TakeSteer` | crates/buzz-acp/src/acp.rs:1874-1998 | the steer arm on the object is the model's: refuse, send under a fresh id and mark dispatched, report a broken write, or be dropped |
| `AcpClients.AcpClient.RouteSteerAnswer` | crates/buzz-acp/src/acp.rs:2165-2337 | the answer settles the steer and renews both copies of the deadline exactly when its outcome does |
| `AcpClients.AcpClient.HandlePermissionRequest` | crates/buzz-acp/src/acp.rs:2720-2761 | the request is remembered before its reply is written and forgotten after |
| `AcpClients.AcpClient.HandleElicitation` | crates/buzz-acp/src/acp.rs:2373-2391 | a question is opened, refused, or refused because one is open |
| `AcpClients.AcpClient.FollowUpdate` | crates/buzz-acp/src/acp.rs:2512-2643 | an update sets or clears the run id, and a tool call counts as activity |
| `AcpClients.AcpClient.Dispatch` | crates/buzz-acp/src/acp.rs:2357-2405 | notifications and agent requests are served as in the model, with -32601 for an unknown request |
| `AcpClients.AcpClient.AnswerQuestion` | crates/buzz-acp/src/acp.rs:2001-2064 | an answered question is replied to, then both clocks restart |
| `AcpClients.AcpClient.ReadFrame` | crates/buzz-acp/src/acp.rs:2115-2405 | one parsed frame is routed as in the model |
| `AcpClients.AcpClient.SelectArm` | crates/buzz-acp/src/acp.rs:1863-2113 | one select, with every exit settling the steer in flight |
| `AcpClients.AcpClient.ReadUntilResponseWithIdleTimeout` | crates/buzz-acp/src/acp.rs:1783-2411 | the loop over local variables computes exactly the model's run, so every run theorem holds of it |
| `AcpClients.AcpClient.Close` | crates/buzz-acp/src/acp.rs:1034-1053 | after the loop a timeout leaves the prompt to a cancel and everything else closes it |
| `AcpClients.AcpClient.SessionPrompt` | crates/buzz-acp/src/acp.rs:987-1056 | the whole prompt call equals the model's |
| `AcpClients.AcpClient.CancelWithCleanup` | crates/buzz-acp/src/acp.rs:1391-1421 | the ordinary cancel equals the model's |
| `AcpClients.AcpClient.CancelWithCleanupGrace` | crates/buzz-acp/src/acp.rs:1435-1449 | the grace cancel equals the model's |
| `AcpClients.AcpClient.CancelWithCleanupUntil` | crates/buzz-acp/src/acp.rs:1451-1530 | the shared cancel body equals the model's |
| `AcpClients.AcpClient.AnswerPendingPermission` | crates/buzz-acp/src/acp.rs:1478-1489 | an owed permission reply is written and forgotten; a failed write leaves it owed |
| `AcpClients.AcpClient.AnswerPendingInput` | crates/buzz-acp/src/acp.rs:1490-1506 | the same for an open question |
| `AcpClients.AcpClient.NotifyAndDrain` | crates/buzz-acp/src/acp.rs:1508-1529 | the cancel notice is written before the drain of the prompt's own response |
| `AcpClients.AcpClient.SendRequest` | crates/buzz-acp/src/acp.rs:1564-1606 | a plain request equals the model's |
| `AcpClients.AcpClient.ReadUntilResponse` | crates/buzz-acp/src/acp.rs:1659-1755 | its loop equals the model's |
| `AcpClients.AcpClient.ServeDuringRequest` | crates/buzz-acp/src/acp.rs:1719-1750 | frames served meanwhile are served as in the model |
| `SteerControl.WrittenIsDispatched` | crates/buzz-acp/src/acp.rs:1967-1986 | a request that was written carries the mark that tells it from an unsent one |
| `SteerControl.AppendedIsHonest` | crates/buzz-acp/src/acp.rs:1911-1998 | within one turn, from any state that has not met the request: a settlement classified `appended` goes back to a pass that wrote the request while session, turn and strict capability matched, and a later response under that id echoing both identities |
| `SteerControl.StaleTargetIsHonest` | crates/buzz-acp/src/acp.rs:1911-1998 | within one turn: a settlement classified `stale_target` means no write, or that the adapter answered `stale_target` under the id |
| `SteerControl.LostAnswerIsUnconfirmed` | crates/buzz-acp/src/acp.rs:2165-2257 | within one turn: a written request under whose id no later pass reads an answer ends with a dropped sender or the neutral ack and is classified `unconfirmed`; so one classified otherwise was answered under its id |
| `SteerControl.UnwrittenIsNeverApplied` | crates/buzz-acp/src/acp.rs:1911-1998 | a request that was not written is never classified `appended`, `busy` or `expired` |
| `SteerControl.ParsedExactlyWhen` | crates/buzz-acp/src/crew_thread_cancel.rs:182-235 | a payload is accepted as a frame if and only if each field is the payload member of its own name, parsed or non-blank as required, and the prompt is at most 16384 bytes |
| `SteerHonesty.AlwaysExplained` | crates/buzz-acp/src/crew_thread_cancel.rs:307-408 | at every point of every history of frames, turns, drops, closes and reports: what is in the channel came from a well-formed frame, what is in flight was written, the dispatch marks are exactly the requests written so far, and every settlement has its cause |
| `SteerHonesty.EmittedAppendedIsHonest` | crates/buzz-acp/src/crew_thread_cancel.rs:237-294 | an emitted `appended` result, whenever its watcher woke and whatever turns went by, proves three moments in order: the well-formed frame; the write under a fresh id while session, turn and capability all matched; a response read under that id echoing requestId and turnId with `appended` |
| `SteerHonesty.EmittedStaleTargetIsHonest` | crates/buzz-acp/src/crew_thread_cancel.rs:237-408 | an emitted `stale_target`, immediate refusals included, proves that the request is written nowhere in the history or that the adapter answered `stale_target` under its id |
| `SteerHonesty.EmittedUnconfirmedIsHonest` | crates/buzz-acp/src/crew_thread_cancel.rs:237-294 | an emitted `unconfirmed` proves that the request was written, or that its write was tried and failed |
| `SteerHonesty.UnansweredIsUnconfirmed` | crates/buzz-acp/src/crew_thread_cancel.rs:237-294 | a written request under whose id no running turn reads an answer is reported, if at all, as `unconfirmed`; so one reported otherwise was answered under its id |
| `SteerHonesty.WrittenOnce` | crates/buzz-acp/src/acp.rs:1967-1986 | no request is written twice, in one turn or in several |
| `SteerHonesty.OutcomeIsPassedOn` | crates/buzz-acp/src/crew_thread_cancel.rs:237-294 | if the answer to the request in flight echoes both identities with one of the five outcomes, the result, once emitted, is that outcome |
| `SteerHonesty.UnusableAnswerIsReported` | crates/buzz-acp/src/crew_thread_cancel.rs:237-294 | an error answer is reported as `rejected`, and any other answer without both echoes and a known outcome as `unconfirmed` |
| `SteerHonesty.RefusalIsReported` | crates/buzz-acp/src/crew_thread_cancel.rs:237-294 | a request taken but not sendable is reported `rejected` without the capability and `stale_target` when session or turn do not match |
| `SteerHonesty.BrokenWriteIsReported` | crates/buzz-acp/src/crew_thread_cancel.rs:237-294 | a request whose write was tried and failed is reported `unconfirmed` |
| `SteerSystem.EveryFrameAnsweredOnce` | crates/buzz-acp/src/crew_thread_cancel.rs:307-408 | over every interleaving of frames, passes, drops, closes and watchers, each steer frame, malformed ones included, has one result or one watcher on one reply channel that is queued, in flight or settled: never two results, none lost |
| `SteerSystem.ClosedTaskStrandsNoFrame` | crates/buzz-acp/src/crew_thread_cancel.rs:307-408 | when the turn is over and its channel closed, every awaited frame can be reported, and then has its one result |
| `SteerSystem.FrameIsForwarded` | crates/buzz-acp/src/crew_thread_cancel.rs:307-408 | a payload that carries a frame for the open task it names, with an empty channel, puts a request there with the payload's own sessionId, turnId, requestId and prompt; with a full channel the result is `busy`, otherwise `stale_target` |
| `SteerSystem.MalformedIsRejected` | crates/buzz-acp/src/crew_thread_cancel.rs:307-408 | a payload that carries no frame is rejected at once |
| `SteerSystem.StartIsConsistent` | crates/buzz-acp/src/crew_thread_cancel.rs:307-408 | the invariant holds before the first frame |
| `SteerSystem.SteerDesk.SendExactSteer` | crates/buzz-acp/src/pool.rs:1129-1157 | a request enters the channel of the exact task, or is refused as stale or busy |
| `SteerSystem.SteerDesk.HandleSteerTurnControl` | crates/buzz-acp/src/crew_thread_cancel.rs:307-408 | one frame is parsed, forwarded or answered at once as in the model |
| `CancelControl.ExplicitTurnIsIsolated` | crates/buzz-acp/src/crew_thread_cancel.rs:41-142 | a frame that carries turnId, stale or malformed included, leaves the queue alone and every task that does not match channel, conversation and turn as it was |
| `CancelControl.ExplicitTurnReachesItsTask` | crates/buzz-acp/src/crew_thread_cancel.rs:118-142 | where the exact target is armed and listening it gets the signal; otherwise none is sent |
| `CancelControl.TurnlessReachesItsTask` | crates/buzz-acp/src/lib.rs:4054-4095 | a frame without a turn reaches the only task of its conversation, or with none there the only task of its channel: signalled and `sent` if armed and listening, its line used up either way, else the status of what was waiting |
| `CancelControl.TurnlessReachesNobody` | crates/buzz-acp/src/lib.rs:4064-4078 | with no task in the conversation and none, or several, in the channel nothing is signalled |
| `CancelControl.ConversationComesFirst` | crates/buzz-acp/src/lib.rs:4060-4063 | with tasks in the conversation one of them is reached, and no other task |
| `CancelControl.PayloadMeans` | crates/buzz-acp/src/crew_thread_cancel.rs:49-80 | which channel, conversation and turn a payload names, each under its own name |
| `CancelControl.TurnlessDrainsOnlyItsConversation` | crates/buzz-acp/src/crew_thread_cancel.rs:6-20 | a frame without a turn drains only its own conversation and only when nothing was signalled |
| `CancelControl.OneOutcomeOneRelease` | crates/buzz-acp/src/crew_thread_cancel.rs:41-116 | a frame with a valid channel has one outcome, and the lease is released once exactly when it is `sent` or `cancelled_queued` |
| `CancelControl.AtMostOneCancelPerTask` | crates/buzz-acp/src/crew_thread_cancel.rs:118-142 | over every run of frames, starts, ends and queueing a task receives at most one cancel |
| `CancelControl.OnlyTurnlessFramesDrain` | crates/buzz-acp/src/crew_thread_cancel.rs:6-20 | over every run: while no frame without a turn names a conversation, what waits in it is what waited before and then what was enqueued, in order |
| `CancelControl.OnlyMatchingFramesTouch` | crates/buzz-acp/src/crew_thread_cancel.rs:41-142 | over every run: a task that does not end keeps its identity, and its control line changes only if it was deafened or a frame matched it, exactly when the frame carries a turn |
| `CancelControl.BooksAlwaysAgree` | crates/buzz-acp/src/crew_thread_cancel.rs:41-116 | over every run: one outcome for each frame with a valid channel, the lease released for exactly the outcomes `sent` and `cancelled_queued` and in their order, one signal for each `sent`, and every event enqueued for a conversation waits there or was reported as drained from it |
| `CancelControl.ControlDesk.SendSignal` | crates/buzz-acp/src/lib.rs:4080-4094 | the control line is taken even when nobody listens; the signal counts only if it arrives |
| `CancelControl.ControlDesk.FindWhere` | crates/buzz-acp/src/lib.rs:4060-4063 | the first task in visiting order that matches, if any does |
| `CancelControl.ControlDesk.HasAnother` | crates/buzz-acp/src/lib.rs:4069-4076 | a second task of the same channel is noticed |
| `CancelControl.ControlDesk.FindExact` | crates/buzz-acp/src/crew_thread_cancel.rs:124-134 | the task with exactly that channel, conversation and turn |
| `CancelControl.ControlDesk.FindLoose` | crates/buzz-acp/src/lib.rs:4060-4078 | the task of the conversation, else the channel's only task |
| `CancelControl.ControlDesk.HandleCancelTurnControl` | crates/buzz-acp/src/crew_thread_cancel.rs:41-116 | one frame updates tasks, queue, outcomes and releases as in the model |
| `DeepMerge.MergeInto` | crates/buzz-acp/src/acp.rs:281-301 | merging entry by entry, in any order, gives the recursive merge |
| `DeepMerge.CoversMeans` | crates/buzz-acp/src/acp.rs:281-301 | a layer covers a path exactly when some prefix of it ends at a value that is not an object, or the path itself is present |
| `DeepMerge.MergedLeaf` | crates/buzz-acp/src/acp.rs:281-301 | at every path the merge holds the overlay's leaf where the overlay covers it and the base's leaf exactly where it does not |
| `DeepMerge.SamePathsSameValue` | crates/buzz-acp/src/acp.rs:281-301 | a JSON value is determined by its leaves and its objects |
| `DeepMerge.MergeIsTheOnlyOne` | crates/buzz-acp/src/acp.rs:281-301 | an object that obeys the path law is the merge: the law leaves no freedom |
| `DeepMerge.StackedLeaf` | crates/buzz-acp/src/acp.rs:371-381 | a stack of layers holds at each path what the last layer covering it holds |
| `DeepMerge.MergedCovers` | crates/buzz-acp/src/acp.rs:281-301 | a merge covers what either layer covers, except below a leaf of the base that an object of the overlay replaces |
| `DeepMerge.AssociativeExactlyWhen` | crates/buzz-acp/src/acp.rs:281-301 | for all objects, merging in either grouping gives the same if and only if the first layer has nothing at any path that lies below a leaf of the second which an object of the third replaces without covering the path |
| `DeepMerge.NotAssociative` | crates/buzz-acp/src/acp.rs:281-301 | associativity fails at an input: object, scalar, object at one key |
| `CodexConfig.BuildCodexConfigEnv` | crates/buzz-acp/src/acp.rs:330-418 | collecting, parsing, merging and forcing step by step gives the specified result or the specified error |
| `CodexConfig.ForceIsALayer` | crates/buzz-acp/src/acp.rs:400-416 | forcing network access is merging one more layer, wherever it succeeds |
| `CodexConfig.BuiltIsStacked` | crates/buzz-acp/src/acp.rs:330-418 | a built configuration is the stack of environment entries, parent and forced layer |
| `CodexConfig.BuiltConfiguration` | crates/buzz-acp/src/acp.rs:304-418 | a built configuration has `sandbox_workspace_write.network_access` true, keeps every parent leaf not at or below that key, and keeps every persona leaf no later layer covers |
| `CodexConfig.BuildSucceedsExactlyWhen` | crates/buzz-acp/src/acp.rs:323-418 | a configuration is built if and only if it was asked for, every layer parses as an object, and the merged section to force is absent or an object |
| `CodexConfig.EntriesInOrder` | crates/buzz-acp/src/acp.rs:342-347 | the layers taken from the environment are the values of `CODEX_CONFIG`, in order, and nothing else |
| `CodexConfig.FirstBadEntryIsReported` | crates/buzz-acp/src/acp.rs:355-374 | the first entry that is not an object is the one reported, as persona or generated, as no JSON or no object |
| `CodexConfig.BadParentIsReported` | crates/buzz-acp/src/acp.rs:383-399 | after good entries a parent that is not an object is reported as such |
| `CodexConfig.BadSectionIsReported` | crates/buzz-acp/src/acp.rs:401-416 | after good layers a merged section that is not an object is reported as such |
| `RustSanitizer.PositionFaithful` | scripts/check-postgres-test-discovery.py:30-99 | every character of the output is the input's or a space, and newlines stay where they are |
| `RustSanitizer.NothingRemovable` | scripts/check-postgres-test-discovery.py:30-99 | no position of the output starts a comment, a string or a complete char literal |
| `RustSanitizer.SanitizedIsClean` | scripts/check-postgres-test-discovery.py:30-99 | for every input: same length, newlines in place, each character kept or blanked, and no double quote, `//`, `/*` or complete char literal left |
| `RustSanitizer.SanitizeIsIdempotent` | scripts/check-postgres-test-discovery.py:30-99 | sanitising twice is sanitising once, for every input |
| `RustSanitizer.BlockCommentIsOnePiece` | scripts/check-postgres-test-discovery.py:43-59 | a block comment nested to any depth is one blanked piece ending at its own closer |
| `RustSanitizer.StringIsOnePiece` | scripts/check-postgres-test-discovery.py:82-97 | a string with any escapes is one blanked piece ending at its closing quote |
| `RustSanitizer.RawStringIsOnePiece` | scripts/check-postgres-test-discovery.py:69-80 | a raw string ends at the first quote with as many hashes as it opened with |
| `RustSanitizer.BlankRange` | scripts/check-postgres-test-discovery.py:55-57 | a range of the character list is blanked in place, everything else untouched |
| `RustSanitizer.SkipComment` | scripts/check-postgres-test-discovery.py:47-54 | the depth counter stops where the recursive definition does |
| `RustSanitizer.SkipString` | scripts/check-postgres-test-discovery.py:87-94 | the escape-skipping loop stops where the recursive definition does |
| `RustSanitizer.NextPiece` | scripts/check-postgres-test-discovery.py:35-98 | the matchers are tried in the source's order |
| `RustSanitizer.RewritePiece` | scripts/check-postgres-test-discovery.py:35-98 | one piece of the character list is rewritten, everything before and after kept |
| `RustSanitizer.SanitizeRust` | scripts/check-postgres-test-discovery.py:30-99 | the one-pass loop over a mutable list computes the specified text |
| `RustTokens.LineCommentIsOnePiece` | scripts/check-postgres-test-discovery.py:36-42 | a line comment is one blanked piece ending at its newline or at the end of the text |
| `RustTokens.CharLiteralIsOnePiece` | scripts/check-postgres-test-discovery.py:61-67 | a char or byte literal, plain or with any escape, is one blanked piece |
| `RustTokens.ByteStringIsOnePiece` | scripts/check-postgres-test-discovery.py:82-97 | a byte string is one blanked piece |
| `RustTokens.ByteRawIsOnePiece` | scripts/check-postgres-test-discovery.py:69-80 | a raw byte string is one blanked piece |
| `RustTokens.OpenCommentIsOnePiece` | scripts/check-postgres-test-discovery.py:43-59 | a comment the text ends in is blanked to the end |
| `RustTokens.OpenStringIsOnePiece` | scripts/check-postgres-test-discovery.py:82-97 | so is a string, a dangling backslash included |
| `RustTokens.OpenRawIsOnePiece` | scripts/check-postgres-test-discovery.py:69-80 | so is a raw string |
| `RustTokens.CodeIsOnePiece` | scripts/check-postgres-test-discovery.py:35-98 | a character at which no comment and no literal begins is kept |
| `RustTokens.SanitizeCleansTokens` | scripts/check-postgres-test-discovery.py:30-99 | on every source written from code characters, comments and literals that do not run into each other, the sanitised text is each code character as it is and each other token blanked |
| `RustTokens.EverySourceIsCleaned` | scripts/check-postgres-test-discovery.py:30-99 | and every source is written so: the law characterises the sanitiser on all inputs |
| `ModuleRanges.PairsAreLaminar` | scripts/check-postgres-test-discovery.py:152-160 | any two brace pairs are nested or apart |
| `ModuleRanges.InsideIsBalanced` | scripts/check-postgres-test-discovery.py:152-160 | the text strictly inside a pair is balanced, stray closers elsewhere notwithstanding |
| `ModuleRanges.BracePairs` | scripts/check-postgres-test-discovery.py:154-160 | the stack pairs an opener with the first later position where the depth is back at its level, and pairs nothing else |
| `ModuleRanges.RangesMean` | scripts/check-postgres-test-discovery.py:162-168 | a range is reported exactly for a header whose brace is closed, with its name and its closer |
| `ModuleRanges.RangesInOrder` | scripts/check-postgres-test-discovery.py:162-168 | ranges come in the order of their openers |
| `ModuleRanges.HeaderExactlyWhen` | scripts/check-postgres-test-discovery.py:162-166 | a header is found at a position, with its name and brace, if and only if `mod`, space, a name, optional space and a brace are written there at a word start |
| `ModuleRanges.HeadersAreAll` | scripts/check-postgres-test-discovery.py:162-166 | the search misses no header and invents none |
| `ModuleRanges.ModuleRangesExactlyWhen` | scripts/check-postgres-test-discovery.py:152-168 | a range is reported if and only if such a header is written in the clean text and its brace closes there |
| `ModuleRanges.FindModuleRanges` | scripts/check-postgres-test-discovery.py:152-168 | the procedure returns exactly those ranges |
| `ModuleRanges.ModuleRangesAreLaminar` | scripts/check-postgres-test-discovery.py:152-168 | the ranges of any source are balanced blocks, in order, any two nested or apart |
| `ChannelFilters.ResolversAgree` | crates/buzz-acp/src/config.rs:1355-1538 | for every configuration, rule list and channel: the batch map speaks only of discovered channels, holds one exactly when the single-channel resolver returns a filter, and holds that filter |
| `ChannelFilters.TargetsAreNamed` | crates/buzz-acp/src/config.rs:1365-1373 | the batch resolver's targets are the discovered channels the operator named in any parsable spelling |
| `ChannelFilters.MergedMeans` | crates/buzz-acp/src/config.rs:1411-1434 | the merged filter in terms of the set of applicable rules alone: wildcard, mention, kinds without repeats |
| `ChannelFilters.RuleFilterIsLeast` | crates/buzz-acp/src/config.rs:1502-1538 | in Config mode there is a filter exactly when a rule applies; it admits every event an applicable rule takes, and any filter that does so admits everything it admits |
| `ChannelFilters.RuleOrderIsIrrelevant` | crates/buzz-acp/src/config.rs:1502-1538 | rule lists with the same applicable rules give the same filter up to the order of kinds |
| `ChannelFilters.ModesAdmit` | crates/buzz-acp/src/config.rs:1376-1409 | which channels, kinds and mentions the two modes without rules admit |
| `ChannelFilters.ScopeMeans` | crates/buzz-acp/src/config.rs:1542-1551 | a rule applies to every channel under the word `all`, to none under another word, and to the channels its list parses to |
| `ChannelFilters.PushNewKinds` | crates/buzz-acp/src/config.rs:1423-1428 | the inner loop appends, in order, the kinds not yet listed |
| `ChannelFilters.ResolveChannelFilters` | crates/buzz-acp/src/config.rs:1355-1449 | the batch loops compute the specified map |
| `ChannelFilters.ResolveDynamicChannelFilter` | crates/buzz-acp/src/config.rs:1460-1540 | the single-channel loop computes the specified filter |
| `ContactDecision.SingleMeans` | crates/buzz-acp/src/contact-decision.rs:25-36 | a field is found exactly when one tag and no other carries the name and has a second value |
| `ContactDecision.VerifiedExactlyWhen` | crates/buzz-acp/src/contact-decision.rs:45-108 | a decision is accepted if and only if the relay signed it as routed, every canonical tag appears once and says what the payload says, it replies to its original, and it is addressed to this agent |
| `ContactDecision.OneContactPerDecision` | crates/buzz-acp/src/contact-decision.rs:97-101 | agents that accept the same decision have the same key, given that keys are printed without ambiguity |
| `ContactDecision.OriginalIsGenuine` | crates/buzz-acp/src/contact-decision.rs:173-186 | the original taken is a fetched event of that id and kind with a valid signature, and one is found whenever there is one |
| `ContactDecision.EveryLogIsOrderly` | crates/buzz-acp/src/contact-decision.rs:216-326 | over any run of deliveries, replays and relay answers every push stands right behind a granted claim and an accepted start of the same generation, and every granted generation is settled within three steps by a queued push or a cancel of that generation |
| `ContactDecision.GrantsAreConserved` | crates/buzz-acp/src/contact-decision.rs:216-326 | each generation granted for a decision is, as often as it was granted, queued or cancelled |
| `ContactDecision.QueuedAtMostOnce` | crates/buzz-acp/src/contact-decision.rs:148-158 | a decision is queued at most once, plus once for each of its deliveries that found the claims registry poisoned |
| `ContactDecision.TimesQueuedExactly` | crates/buzz-acp/src/contact-decision.rs:148-326 | exactly how often a decision is queued, from the deliveries alone: once for each that would be queued and either cannot read the registry or comes before any that could be recorded |
| `ContactDecision.PoisonedRegistryQueuesTwice` | crates/buzz-acp/src/contact-decision.rs:324-326 | any delivery that queues but cannot record queues again on replay |
| `ContactDecision.RegistryIsTheQueue` | crates/buzz-acp/src/contact-decision.rs:324-326 | the registry holds only generations under which the decision was queued and, while it can be locked, all of them |
| `ContactDecision.GrantReads` | crates/buzz-acp/src/contact-decision.rs:226-229 | `claim:` followed by a printed number grants that number if it fits 64 bits, and an answer that is not accepted grants nothing |
| `ContactDecision.ReplayChangesNothing` | crates/buzz-acp/src/contact-decision.rs:148-158 | a replay of a recorded decision sends nothing and changes nothing |
| `ContactDecision.OnlyGenuineDecisions` | crates/buzz-acp/src/contact-decision.rs:137-326 | over every run nothing is sent or pushed but for a verified decision for this agent with a genuine original and an authorised author; messages name that decision, its channel, a 300 second claim and the generation granted; pushes carry the original text into the right conversation |
| `ContactDecision.ContactDesk.constructor` | crates/buzz-acp/src/contact-decision.rs:125-135 | an agent starts with an empty registry |
| `ContactDecision.ContactDesk.FetchOriginal` | crates/buzz-acp/src/contact-decision.rs:173-186 | the search loop finds the first genuine original |
| `ContactDecision.ContactDesk.ConsumeContactDecision` | crates/buzz-acp/src/contact-decision.rs:125-326 | the handler sends, pushes and records exactly as specified, and answers true exactly when it queued |
| `Resp.DecimalIsInt` | perf/relay_bus_scaling.py:112-114 | a printed length is read back as the same number |
| `Resp.ReplyExtends` | perf/relay_bus_scaling.py:130-153 | more bytes behind a complete reply change nothing but what is left |
| `Resp.CommandRoundTrip` | perf/relay_bus_scaling.py:110-153 | for every list of byte strings, CR LF inside included, and any trailing bytes, reading the encoded command returns that list and leaves exactly the trailing bytes |
| `Resp.TextsAreParts` | perf/relay_bus_scaling.py:110-118 | the list read back holds each part at its place |
| `Resp.TruncatedCommandFails` | perf/relay_bus_scaling.py:130-153 | a command cut short at any byte is never taken for a complete one |
| `Resp.StreamDecodesOneByOne` | perf/relay_bus_scaling.py:110-153 | commands written one after another decode one by one |
| `Resp.ReplyRoundTrip` | perf/relay_bus_scaling.py:130-153 | replies of every kind, nested to any depth, are read back as what they mean, and what follows stays in the stream |
| `Resp.ErrorIsRaised` | perf/relay_bus_scaling.py:136-137 | an error reply is raised, never returned, and consumed whole |
| `Resp.ItemsStopAtError` | perf/relay_bus_scaling.py:149-152 | an error inside an array is raised at once, and the items behind it are left in the stream |
| `Resp.BadLineIsRefused` | perf/relay_bus_scaling.py:121-127 | a line without CR LF is consumed and refused, and the end of the stream is told apart |
| `Resp.BadBulkIsRefused` | perf/relay_bus_scaling.py:138-147 | a bulk string with a length below -1, cut short, without its terminator or not text is refused |
| `Resp.NegativeArrayIsEmpty` | perf/relay_bus_scaling.py:148-152 | an array count below -1 reads as an empty list |
| `Resp.UnknownPrefixIsRefused` | perf/relay_bus_scaling.py:153-153 | any other first byte is refused |
| `Resp.WriteCommand` | perf/relay_bus_scaling.py:110-118 | the frame built part by part is the specified encoding |
| `Resp.ByteStream.TakeLine` | perf/relay_bus_scaling.py:121-127 | a line is consumed with its newline and returned without CR LF; end of stream and a bare newline are told apart |
| `Resp.ByteStream.TakeNumber` | perf/relay_bus_scaling.py:138-140 | a line that holds a number is consumed and parsed, or refused |
| `Resp.ByteStream.TakeBulk` | perf/relay_bus_scaling.py:139-147 | a bulk string is consumed with its terminator, or refused |
| `Resp.ByteStream.TakeResp` | perf/relay_bus_scaling.py:130-153 | the recursive reader consumes the shared stream exactly as specified, errors included |
| `Resp.ByteStream.TakeItems` | perf/relay_bus_scaling.py:149-152 | an array reads its items in turn from the same stream |
| `StagingSafety.WriteMeans` | scripts/crew_staging_baseline.py:66-81 | a state write cut at any point leaves each copy of the file as the old or the new version, and both new when it returns |
| `StagingSafety.RebuildIsSafe` | scripts/crew_staging_restore.py:267-312 | until the relay is started nothing is vouched for and the relay is down; by then every part of the baseline is in place and all four checks have passed |
| `StagingSafety.RestoreIsSafe` | scripts/crew_staging_restore.py:263-326 | a restore keeps the invariant wherever it fails or is cut, cleanup handler included |
| `StagingSafety.VerifyIsSafe` | scripts/crew_staging_verify.py:45-94 | so does a verification |
| `StagingSafety.AlwaysSafe` | scripts/crew_staging_restore.py:263-333 | in every sequence of restores, verifications, stops and power cuts, each cut or failing at any step: the state file (as read and as a power cut would leave it) vouches for a baseline only if the last restore past its first write was of that baseline, completed, and all of it is in place; `SERVER_VERIFIED` only with a probe read back after every check; the relay never serves half-restored data and is never started before the event, executable-state, asset and ownership checks passed; no probe is sent that is not durably on record |
| `StagingSafety.CompletesExactlyWhen` | scripts/crew_staging_restore.py:263-326 | a series of steps completes exactly when each of them succeeds |
| `StagingSafety.RestoreDelivers` | scripts/crew_staging_restore.py:263-326 | a restore completes exactly when each of its steps succeeds, and then both copies of the file say so, the relay runs, and the baseline is in place |
| `StagingSafety.UnreadyRelayIsStopped` | scripts/crew_staging_restore.py:314-323 | when the wait for the relay raises, a stop that succeeds leaves it down, and a stop that raises is noted in both copies of the file |
| `StagingSafety.VerifyDelivers` | scripts/crew_staging_verify.py:60-94 | a completed verification leaves both copies of the file verified for that baseline, with the probe an earlier attempt had put on record |
| `StagingSafety.RefusedUnlessVerifiable` | scripts/crew_staging_verify.py:49-51 | a missing, unavailable or foreign state file is refused before any check |
| `StagingSafety.RestoreCommitsAtItsFirstWrite` | scripts/crew_staging_restore.py:264-264 | a restore counts from the moment its first write reached the disk: from then on only its own baseline is named, before that nothing but the visible file has changed |
| `StagingSafety.UncommittedRestoreIsForgotten` | scripts/crew_staging_baseline.py:74-81 | a restore cut between replacing the file and syncing the directory can be forgotten by a power cut: the older claim shows again, and its data is still there |
| `StagingPrograms.StagingHost.constructor` | scripts/crew_staging_restore.py:247-260 | a server nobody has restored yet |
| `StagingPrograms.StagingHost.Step` | scripts/crew_staging_restore.py:141-145 | one step succeeds, raises or is cut off, with or without its effect |
| `StagingPrograms.StagingHost.AwaitOrStop` | scripts/crew_staging_restore.py:314-323 | a relay that does not become ready is stopped, and a failed stop is noted |
| `StagingPrograms.StagingHost.RestoreLocked` | scripts/crew_staging_restore.py:263-326 | the restore is the specified one; wherever it stops, a safe server stays safe; if it completes, both copies of the file say so and the relay serves the whole baseline |
| `StagingPrograms.StagingHost.EnsureChannel` | scripts/crew_staging_verify.py:63-69 | the recorded probe channel is used, or one is created and recorded |
| `StagingPrograms.StagingHost.EnsureProbe` | scripts/crew_staging_verify.py:70-81 | the recorded probe is used, or its text is recorded, sent, and its id recorded |
| `StagingPrograms.StagingHost.ReadBackAndAttest` | scripts/crew_staging_verify.py:82-93 | verified is written only after the read-back and the second look at the source |
| `StagingPrograms.StagingHost.VerifyLocked` | scripts/crew_staging_verify.py:45-94 | the verification is the specified one; wherever it stops, a safe server stays safe; if it completes, both copies of the file say verified for that baseline |
| `StagingPrograms.StagingHost.Stop` | scripts/crew_staging_restore.py:329-333 | a safe server stays safe, file and data are left alone, and a completed stop leaves the relay down |
| `Worklet.FramesAreTheStretch` | desktop/public/worklet.js:45-61 | the frames of a stretch in order, then its tail, are the stretch; frames have 960 samples and the tail fewer |
| `Worklet.FramesInPieces` | desktop/public/worklet.js:45-61 | samples may arrive in any pieces: only the tail and the new piece decide what comes next |
| `Worklet.PostedIsTheSpeech` | desktop/public/worklet.js:34-64 | for any interleaving of blocks of at most 960 samples and gate changes, what is posted is every uninterrupted stretch cut into frames, in order, and what is pending is the tail of the current one |
| `Worklet.SamplesAreConserved` | desktop/public/worklet.js:34-64 | no failure, fewer than 960 pending, every posted frame 960 long, and accepted = 960 × posted + pending + discarded, each gate discarding fewer than 960 |
| `Worklet.BlockBoundIsExact` | desktop/public/worklet.js:45-61 | blocks of n samples always fit, wherever the buffer stands, if and only if n is at most 960 |
| `Worklet.SttTapProcessor.constructor` | desktop/public/worklet.js:19-24 | an empty buffer, the gate open |
| `Worklet.SttTapProcessor.OnMessage` | desktop/public/worklet.js:27-31 | only a `ptt` message moves the gate |
| `Worklet.SttTapProcessor.SetBuffer` | desktop/public/worklet.js:47-47 | a copy in range replaces just that part; out of range nothing is copied |
| `Worklet.SttTapProcessor.PostBuffer` | desktop/public/worklet.js:52-54 | the full buffer is handed over and a fresh one taken |
| `Worklet.SttTapProcessor.Process` | desktop/public/worklet.js:34-64 | one block on the object is the specified step, a throw included, and no posted buffer is ever touched again |

## Left out

- Tool-progress allowances (`acp/tool-progress.rs`): the extended silence deadline is a number that each frame brings along.
- Which permission option is chosen and whether an elicitation is opened (`acp/permission-options.rs`, `elicitation`): decisions from outside; only that one reply is made, and when, is modelled.
- Turning the prompt's result into a stop reason, turn summaries, usage, plan and rotation tracking: folds over frames that do not touch the protocol state.
- JSON, UUID, UTF-8 and key parsing, hashing and signature checks: parameters, so the statements hold for any parser. JSON integers and other numbers are kept apart, as the id comparison in the source does.
- The texts of reasons, error messages and echoed identifiers (`bound_steer_reason`, `echo_id`): only statuses are modelled.
- Process spawning and killing, standard streams, scheduling, logging, observer and relay transport: only the order and success of writes matter. The fixed time limits inside single writes and requests appear as their failure.
- `drain_stale_responses` and session set-up calls: the first discards input between turns, the others are plain requests.
- `DeepMerge.MergeInto`: works on map values. The source updates the base map through a unique reference, so no aliasing is lost; the order of entries is left open.
- `CodexConfig.BuildCodexConfigEnv`: gives the JSON value, not its text.
- `SteerSystem.EveryFrameAnsweredOnce`: is about one task and the frames aimed at it or at none; frames for different tasks share no state.
- `AcpPermissions.EveryRequestIsAccountedFor`: a write is one atomic success or failure, so a reply half-written when the caller goes away counts as not written.
- `RustSanitizer.SanitizeRust`: the two regular expressions are explicit matchers, characterised in `RustTokens`; the ignore-attribute and file-level checks of that script are not modelled.
- `ModuleRanges.FindModuleRanges`: word characters beyond ASCII are a parameter.
- Rule fields that do not reach a subscription filter (name, expression, prompt tag) and the command line: the resolvers never read the first, and the second only fills the configuration they are given.
- The queue behind a contact decision: whether it accepts is an answer from outside; its deduplication and depth cap are not modelled. Removal from the claims registry does not occur in the source and is not modelled.
- `Resp.ByteStream.TakeNumber`: reads numbers of any length; Python's digit limit and recursion limit are not modelled.
- Redis sockets, subscriber threads and the benchmark arithmetic: they drive the reader and writer modelled here and report rates; neither changes what is read.
- Staging: docker, psql, tar and curl are steps that succeed, raise or are cut off. The checks before the lock, and the field-by-field ownership checks, are each one such step. A power cut is taken to lose nothing but an unsynced replacement of the state file, and containers stay down after it, as their restart policy says. A command that goes on inside a container after its client was killed is not modelled.
- `Worklet.SttTapProcessor.Process`: samples are exact numbers, since none is ever computed with.
- `compaction_signal.rs`, `declared_plan.rs`, `channel_membership_signal.rs`, `channel-subscription-updates.rs`, `conversation.rs`, `cowork_turn.rs`: they note signals, plans, memberships and identifiers found in events; no steer, cancel, deadline, permission or filter decision modelled here reads what they keep.
- The desktop and admin interfaces, release and icon scripts: user interface and build tooling outside the protocols modelled.
