# Verification of the control-plane-kit server products

A Dafny model of the parts of this repository whose correctness is hardest to see, with proofs. `dafny verify dfyconfig.toml` checks all of it.

## What is modelled

**The durable topology client** (`client/workflow.py`, `client/journal.py`). A client process takes one deployment operation through prepare, decide, admit, claim, start, execute and advance against a server it does not trust. Every request is written to a private journal before it is sent, and every accepted response is folded into the journal.

- `JournalFormat.dfy` holds the journal and the validator that every read and write of it passes; `PublicResponses.dfy` the binding of responses; `PublicReads.dfy` what the client makes of reads, and where workflow and validator, two separate descriptions of one protocol, agree.
- `DurableProtocol.dfy` is the protocol as steps over what outlives a process: the journal file, the requests sent, the keys the server has applied, the key factory. A crash only ends the process that takes the steps, so every state of a run is one that a crash may leave. A power loss is a step: it may bring back any journal the file has held since a write was last reported stored.
- `ProtocolTheorems.dfy` proves what holds in every run, and exactly when a power loss leaves it standing. `PowerLosses.dfy` shows the runs in which it does not. `ReachableHistories.dfy` shows that the language of accepted requests is exact.
- `TopologyWorkflow.dfy` is the client itself, as a class that updates its journal in place. Reads, answers, disk faults and crashes are arbitrary. A ghost trace ties every method to the protocol: whatever a call does is a run, so every theorem about runs holds of it. A ghost flag, `troubled`, is raised where the lock is taken, the disk or the power fails, a read or a request goes unanswered or an answer is no help; without it `apply` is shown to converge.
- `Pager.dfy` is the paged reading of a public history, `JournalStore.dfy` the crash-atomic file store. `JournalFile.dfy` ties the store to the protocol: what a write, a failure or a restart leaves on the disk is what the protocol's steps allow for.

**The gateway's replay cache** and the verifier in front of it (`ReplayCache.dfy`), **the wire codecs** of client and server (`QueryCodec.dfy`, `ClientQueries.dfy`, `JsonNesting.dfy`, `PathTemplates.dfy`), **the coordinate rewriter** with the publication of its catalogue (`DependencyPins.dfy`, `CoordinateUpdates.dfy`, `CataloguePublication.dfy`) and **the phase ledger** of source-live runs (`PhaseLedger.dfy`).

## What the model takes for granted

- The key factory never repeats itself, and a key it draws is random enough to be new to the server. A digest is injective, so it is modelled as the digested body.
- The server may answer anything, but it reports success for a mutation only if it has applied the request's key. It may apply a request and lose the response.
- Operations share nothing but the server, and one operation's lock admits one process, so one operation is followed.
- Texts that the client compares with are constructors of one type, any other text is its UTF-8 bytes. `==`, `in` and truth of JSON values are those of the source: booleans, integers and floats compare by value, and testing a container for membership in a set raises.
- The JSON libraries print and parse inversely: the parser reads what the printer writes, and the server's refuses keys that appear twice. A file digest followed by a file name is no JSON text.
- A power loss ends the calls in progress like any other death of the process; the file then holds one of the journals it has held since one was reported stored.
- A call to the operating system is done, raises, or is the last thing the process does, before or after its effect. A power loss may bring back any entries the directory has had since it was last synced, and any content for data that was not synced.

## Where the code does less than one might expect

- A write that renames the new journal into place and then fails, or is cut off, before the directory is synced is not stored, but the next process reads the new journal and acts on it (`client/journal.py:249-257`, `client/workflow.py:563-584`). If it replays a request whose write-ahead was such a write, a power loss can take the request out of the journal after the server has applied it, and a later call sends it again under a new key. `AppliedTwice` is the run, on every route. While the power stays on nothing of the kind happens, whatever process dies and whichever write fails: `ExactlyOnce`, and every method of the client (`StaysAccounted`). Over power losses `AccountedNowExactly` is the exact condition for every request to stay accounted for: no power loss leaves a journal that does not know a key already sent. `AccountedExactly` is the condition for no power loss to be able to: every request was known to every journal the file might hold when it was sent; the client keeps it whenever it writes the request ahead itself, and only a replay can break it (`Apply`, `Recover`). `NeverTakenBackExactly` is the exact condition for the journal never to go back.
- `apply` on an operation that has already converged sends nothing, but it never reports convergence again: only phase `advanced` skips the comparison with the base pointer (`client/workflow.py:384`). `TopologyClient.Apply` states it.
- A plan of more than 128 activities cannot be journalled (`client/journal.py:617`). `SettledIsValid` gives the exact condition, `Plan`, `ResumePrepare` and `FinishPrepare` that there is no other.
- When a server turns an approved approval back to pending, the decision is stopped by the validator, not by the workflow. `Apply` and `Decide` say so.
- The replay cache forgets a token when it expires, the verifier still accepts it for the clock skew. `AcceptedTwiceWithinSkew` is the instance, `RefusedExactlyWhileHeld` the exact rule.
- The client's `urlencode` writes a space as `+`, which strict decoding leaves alone. `ClientQueryExactly` says what the server reads in the client's whole query, and that it is what was meant exactly if the cursor's text has no space.
- The server matches a path that the web framework has already percent-decoded (`server.py:521`). A value with a slash is then not read back; `DecodedRoundTripExactly` is the exact condition. `PathRoundTrip` is about the path as it is sent.
- A partial file that a crash leaves behind stops every later write of its operation: nothing in the store removes it. `StalePartialBlocks` states it.
- A descriptor path that names the generated catalogue, its packaged copy or the digest beside that breaks the second generation. `ApplySettles` gives the exact condition.

## Model

| member | source | states |
|---|---|---|
| DurableProtocol.StepKeepsInv | products/cpk_server/src/control_plane_kit_servers_cpk_server/client/workflow.py:530-659 | The invariant of the operation (every journal the file may hold is explained by its history, its accepted keys are applied, transmissions under one key are one request, and no two such journals give a key two meanings) survives every step: creation, drawing a key, write-ahead, transmission, folding a response in, bookkeeping, each reported stored or not, and power losses |
| DurableProtocol.StepKeepsAccounted | products/cpk_server/src/control_plane_kit_servers_cpk_server/client/workflow.py:555-584 | A step keeps every sent key known to every journal the file may hold if and only if it is not the sending of a request that one of them does not know |
| DurableProtocol.StepKeepsAccountedNow | products/cpk_server/src/control_plane_kit_servers_cpk_server/client/workflow.py:540-659 | A step keeps every sent key in the journal, reported stored or not, unless it is a power loss; a power loss does if and only if the journal it leaves knows them all |
| DurableProtocol.NextKeyIsFresh | products/cpk_server/src/control_plane_kit_servers_cpk_server/client/workflow.py:545-554 | The next key of the factory is new to the server, to the requests sent and to every journal the file may hold |
| DurableProtocol.ResponseAdds | products/cpk_server/src/control_plane_kit_servers_cpk_server/client/workflow.py:1142-1276 | On every route, a response that is bound to its request adds only coordinates that were not there, keeps those that were, and fits the phase it leads to |
| DurableProtocol.PrepareAdds | products/cpk_server/src/control_plane_kit_servers_cpk_server/client/workflow.py:1215-1216 | ResponseAdds for a preparation: plan and approval are new |
| DurableProtocol.DecideAdds | products/cpk_server/src/control_plane_kit_servers_cpk_server/client/workflow.py:1217-1221 | ResponseAdds for a decision |
| DurableProtocol.AdmitAdds | products/cpk_server/src/control_plane_kit_servers_cpk_server/client/workflow.py:1222-1223 | ResponseAdds for an admission: the execution request is new |
| DurableProtocol.ClaimAdds | products/cpk_server/src/control_plane_kit_servers_cpk_server/client/workflow.py:1224-1230 | ResponseAdds for a claim: run and claim generation are new and stay |
| DurableProtocol.StartAdds | products/cpk_server/src/control_plane_kit_servers_cpk_server/client/workflow.py:1231-1238 | ResponseAdds for a start |
| DurableProtocol.ExecuteAdds | products/cpk_server/src/control_plane_kit_servers_cpk_server/client/workflow.py:1239-1264 | ResponseAdds for an execute, whichever of the accepted status combinations it reports |
| DurableProtocol.AdvanceAdds | products/cpk_server/src/control_plane_kit_servers_cpk_server/client/workflow.py:1265-1276 | ResponseAdds for an advancement: the advanced pointer and revision are the plan's desired ones |
| DurableProtocol.AcceptedIsValid | products/cpk_server/src/control_plane_kit_servers_cpk_server/client/journal.py:263-404 | The validator accepts every journal into which a bound response has been folded |
| DurableProtocol.AcceptKeepsCoherent | products/cpk_server/src/control_plane_kit_servers_cpk_server/client/workflow.py:648-658 | Folding a bound response in keeps the journal explained by its history |
| DurableProtocol.BookKeepsCoherent | products/cpk_server/src/control_plane_kit_servers_cpk_server/client/workflow.py:202-205 | Recording plan coordinates, settling a phase and journalling a result keep it too |
| ProtocolTheorems.RunKeepsInv | products/cpk_server/src/control_plane_kit_servers_cpk_server/client/workflow.py:122-469 | Every state of every run, over any number of processes, crashes, power losses, lost responses and answers, satisfies the invariant |
| ProtocolTheorems.RunOnlyMovesForward | products/cpk_server/src/control_plane_kit_servers_cpk_server/client/journal.py:85-93 | While the power stays on, the durable phase never moves back, the history only grows at its end, and plan, session, approval, request, run and claim coordinates never change once set |
| ProtocolTheorems.NeverTakenBackExactly | products/cpk_server/src/control_plane_kit_servers_cpk_server/client/journal.py:249-257 | Over power losses too a journal is never taken back if and only if every journal the file may hold already descends from it |
| ProtocolTheorems.ReportedIsKept | products/cpk_server/src/control_plane_kit_servers_cpk_server/client/journal.py:252-257 | A journal that was reported stored is never taken back, over any power losses |
| ProtocolTheorems.AccountedExactly | products/cpk_server/src/control_plane_kit_servers_cpk_server/client/workflow.py:555-584 | In every state of a run every journal the file may hold knows all sent keys, if and only if each request was known to all of them when it was sent |
| PowerLosses.AppliedTwice | products/cpk_server/src/control_plane_kit_servers_cpk_server/client/journal.py:249-257 | On every route: a request whose write-ahead was never reported stored can be sent and applied, taken back by a power loss, and sent and applied again under a new key, with only the second in the journal |
| ProtocolTheorems.ExactlyOnce | products/cpk_server/src/control_plane_kit_servers_cpk_server/client/workflow.py:540-659 | While the power stays on, over any processes that die, writes that fail and responses that are lost, from the beginning or from any state whose journal knows the keys sent: the keys in the history are applied, the server has applied those and at most the pending one, with nothing pending exactly those, no key is recorded twice, and without a journal nothing was sent |
| ProtocolTheorems.AccountedNowExactly | products/cpk_server/src/control_plane_kit_servers_cpk_server/client/journal.py:249-257 | Over power losses, the journal knows every sent key in every state of a run if and only if no power loss left one that did not know some key already sent |
| ProtocolTheorems.ExactlyOnceInAll | products/cpk_server/src/control_plane_kit_servers_cpk_server/client/workflow.py:540-659 | If each request was known to every journal the file might hold when it was sent, the same accounting holds of every journal a power loss may bring back |
| ProtocolTheorems.PendingLifeCycle | products/cpk_server/src/control_plane_kit_servers_cpk_server/client/workflow.py:555-658 | A pending request comes into being under a key never sent before, and goes away only as the next record of the history, with its route, key and digest; a power loss brings a whole earlier journal back |
| ProtocolTheorems.ReplayIdentity | products/cpk_server/src/control_plane_kit_servers_cpk_server/client/workflow.py:563-584 | Two transmissions under one idempotency key are the same request: route, path, role and whole body, including the graph of a preparation, which the journal does not hold |
| ProtocolTheorems.AcceptedWasSent | products/cpk_server/src/control_plane_kit_servers_cpk_server/client/workflow.py:648-655 | Every accepted record was sent under its key, on its route, with the body its digest stands for |
| ProtocolTheorems.EndStatesAbsorb | products/cpk_server/src/control_plane_kit_servers_cpk_server/client/workflow.py:262-293 | From a durable phase advanced, converged, no-changes or attention-required on, while the power stays on, no later state of the run has another request sent or another record accepted |
| ProtocolTheorems.StoredEndStatesAbsorb | products/cpk_server/src/control_plane_kit_servers_cpk_server/client/workflow.py:262-293 | Over any power losses the same holds once every journal the file may hold is in such a phase |
| ProtocolTheorems.EndTakenBack | products/cpk_server/src/control_plane_kit_servers_cpk_server/client/journal.py:249-257 | While the file may still hold a journal that waits for a response, a power loss can lead to one more transmission, whatever the phase |
| ProtocolTheorems.EndedStays | products/cpk_server/src/control_plane_kit_servers_cpk_server/client/journal.py:427-433 | In such a phase no step sends or accepts anything, and none but a power loss leaves it |
| ProtocolTheorems.EndedWaitsForNothing | products/cpk_server/src/control_plane_kit_servers_cpk_server/client/journal.py:85-93 | In such a phase nothing is pending, and the validator refuses every journal that announces a request |
| ProtocolTheorems.HistorySpells | products/cpk_server/src/control_plane_kit_servers_cpk_server/client/journal.py:85-93 | What the accepted routes spell, for each phase a history can lead to |
| ProtocolTheorems.HistoryLanguage | products/cpk_server/src/control_plane_kit_servers_cpk_server/client/workflow.py:270-440 | The accepted routes are a prefix of prepare, decide at most once, admit, claim, start, execute n times, advance, the whole word once advanced, with 0 < n <= 124 |
| ReachableHistories.LanguageIsExact | products/cpk_server/src/control_plane_kit_servers_cpk_server/client/workflow.py:122-469 | A word of routes is the history of some run if and only if it has at most 128 letters and is a prefix of a word of that language with n > 0 |
| ReachableHistories.Spell | products/cpk_server/src/control_plane_kit_servers_cpk_server/client/workflow.py:530-659 | A run of the protocol's steps, with a server that answers, that reaches any prefix of any word of the language |
| ReachableHistories.Answerable | products/cpk_server/src/control_plane_kit_servers_cpk_server/client/workflow.py:1203-1276 | In every phase that allows a route, the request can be journalled and there is an answer bound to it |
| ReachableHistories.Exchange | products/cpk_server/src/control_plane_kit_servers_cpk_server/client/workflow.py:530-658 | From any open journal in a phase that allows a route, a run goes on to one that has accepted exactly one more request on that route |
| ProtocolTheorems.ExecutesInOrder | products/cpk_server/src/control_plane_kit_servers_cpk_server/client/workflow.py:343-382 | In a history, an execute with another execute after it reported progressed, and an execute right before an advancement reported completed |
| ProtocolTheorems.ExecutesProgress | products/cpk_server/src/control_plane_kit_servers_cpk_server/client/workflow.py:343-382 | The same for every coherent journal, and the completed execute's run succeeded |
| ProtocolTheorems.ConvergedIsSound | products/cpk_server/src/control_plane_kit_servers_cpk_server/client/workflow.py:383-440 | An advanced or converged journal ends in a completed, succeeded execute followed by an advancement, sent and applied, from exactly the plan's base pointer to its desired pointer and revision |
| ProtocolTheorems.EffectBudget | products/cpk_server/src/control_plane_kit_servers_cpk_server/client/workflow.py:540-542 | An operation accepts at most 124 executes, and the effects they report add up to at most that many |
| ProtocolTheorems.FoldShows | products/cpk_server/src/control_plane_kit_servers_cpk_server/client/workflow.py:586-659 | What a folded response keeps of the journal and the phase it leads to |
| PublicReads.AttentionIsValid | products/cpk_server/src/control_plane_kit_servers_cpk_server/client/workflow.py:661-680 | The validator accepts every attention result the workflow journals, on every valid journal |
| PublicReads.NewJournalIsValid | products/cpk_server/src/control_plane_kit_servers_cpk_server/client/workflow.py:1018-1036 | A new journal is valid if and only if the workspace id of the profile is a coordinate text |
| PublicReads.WriteAheadIsValid | products/cpk_server/src/control_plane_kit_servers_cpk_server/client/journal.py:407-552 | A request as the workflow builds it is accepted by the validator if and only if it belongs to the journal's phase |
| PublicReads.SettledIsValid | products/cpk_server/src/control_plane_kit_servers_cpk_server/client/journal.py:555-643 | The result of a preparation is accepted by the validator if and only if its plan has at most 128 activities |
| PublicReads.PlanResultIsValid | products/cpk_server/src/control_plane_kit_servers_cpk_server/client/journal.py:616-637 | The same for the result by itself |
| PublicReads.ConvergedIsValid | products/cpk_server/src/control_plane_kit_servers_cpk_server/client/workflow.py:465-468 | The validator accepts the converged journal of every valid advanced one, and its result says converged, succeeded and advanced |
| PublicReads.RecordPlanRecords | products/cpk_server/src/control_plane_kit_servers_cpk_server/client/workflow.py:1293-1307 | Coordinates taken from a plan that agrees with the journal are complete, valid, agree with that plan, and keep plan, approval and run |
| PublicReads.RecordingIsBooked | products/cpk_server/src/control_plane_kit_servers_cpk_server/client/workflow.py:202-205 | When plan coordinates are recorded on their own, the journal stays valid and nothing else changes |
| PublicReads.PlanStays | products/cpk_server/src/control_plane_kit_servers_cpk_server/client/workflow.py:983-995 | A plan that agreed with the recorded coordinates still does after any accepted response |
| PublicReads.PlanNames | products/cpk_server/src/control_plane_kit_servers_cpk_server/client/workflow.py:983-995 | A plan that agrees with complete coordinates names exactly the journalled ids, pointers and revision, so requests built from the plan and requests checked against the journal are the same |
| PublicReads.ChangesOf | products/cpk_server/src/control_plane_kit_servers_cpk_server/client/workflow.py:1114-1139 | One change per activity, in order, each the projection of its activity and well-formed; an error exactly if some activity has none |
| PublicReads.StatusSays | products/cpk_server/src/control_plane_kit_servers_cpk_server/client/workflow.py:682-753 | Every status result names the journal's operation, workspace, plan, approval and run, and the status of its phase unless attention is called for |
| PublicReads.VerdictMeansConsent | products/cpk_server/src/control_plane_kit_servers_cpk_server/client/workflow.py:224-242 | Without a foreign pending request, `apply` goes on if and only if the approval stands or the caller named this very plan for its kind and no plan for the other kind |
| PublicReads.VerdictNeedsConsent | products/cpk_server/src/control_plane_kit_servers_cpk_server/client/workflow.py:224-242 | With any pending request, it goes on only with that consent |
| PublicReads.ConsentIsEnough | products/cpk_server/src/control_plane_kit_servers_cpk_server/client/workflow.py:224-242 | With that consent it goes on, unless a request other than a decision is pending while the approval still is |
| PublicReads.ExecutionLeads | products/cpk_server/src/control_plane_kit_servers_cpk_server/client/workflow.py:1180-1200 | The phase after an execute is executed, executing or attention-required, as its coordinator status is completed, progressed or anything else |
| TopologyWorkflow.TopologyClient.Plan | products/cpk_server/src/control_plane_kit_servers_cpk_server/client/workflow.py:122-152 | Sends nothing but one preparation, leaves an existing operation alone; the validator stops it only for a workspace id that is no coordinate text or a plan of more than 128 activities; a planned result is the journalled one, with the status of its phase and the changes of the plan that was read; the accounting of requests is kept |
| TopologyWorkflow.TopologyClient.ResumePrepare | products/cpk_server/src/control_plane_kit_servers_cpk_server/client/workflow.py:154-167 | Sends at most one preparation; the validator stops it only for a plan of more than 128 activities; the accounting of requests is kept |
| TopologyWorkflow.TopologyClient.Apply | products/cpk_server/src/control_plane_kit_servers_cpk_server/client/workflow.py:169-469 | Sends only if the caller confirmed the journalled plan and consented to the approval that was read, a decision only while that approval is awaited or to replay a journalled one; in the order of the protocol, nothing twice but executes, never more than 128 less the accepted requests, nothing once the operation has ended; the accounting of requests is kept while the power stays on, and over any power loss unless it replays a request that was not reported stored; the validator stops it only when it is already converged or an approval went back to pending; a converged result implies a converged journal, a whole word of the language and a read after the last request that showed the desired pointer; an operation already converged never reports so again; from a journal without a run, with consent and without trouble, it converges |
| TopologyWorkflow.TopologyClient.Perform | products/cpk_server/src/control_plane_kit_servers_cpk_server/client/workflow.py:186-469 | The same from the loaded journal on, whose plan the caller has confirmed |
| TopologyWorkflow.TopologyClient.Resume | products/cpk_server/src/control_plane_kit_servers_cpk_server/client/workflow.py:262-469 | Replay, then the remaining requests: in order from the pending request's stage, or else from the first stage the journal has not reached; nothing without an approval; the accounting of requests is kept |
| TopologyWorkflow.TopologyClient.Recover | products/cpk_server/src/control_plane_kit_servers_cpk_server/client/workflow.py:262-265 | Sends the journalled pending request or nothing; with nothing pending it changes nothing; after it nothing is pending, the plan still agrees, and the next stage is a later one or another execute; without trouble it goes on; the accounting of requests is kept |
| TopologyWorkflow.TopologyClient.Drive | products/cpk_server/src/control_plane_kit_servers_cpk_server/client/workflow.py:266-469 | From a journal that waits for nothing: requests in the order of the protocol from its next stage on, within the budget; on a converged journal only attention-required |
| TopologyWorkflow.TopologyClient.Begin | products/cpk_server/src/control_plane_kit_servers_cpk_server/client/workflow.py:270-327 | Decision, admission and claim in this order, each at most once, starting with the first the journal lacks; on success exactly those it lacks |
| TopologyWorkflow.TopologyClient.Finish | products/cpk_server/src/control_plane_kit_servers_cpk_server/client/workflow.py:328-440 | Start, executes and advancement in this order, only executes more than once, starting with the first the journal lacks; on success the journal is advanced; never from a converged journal |
| TopologyWorkflow.TopologyClient.Decide | products/cpk_server/src/control_plane_kit_servers_cpk_server/client/workflow.py:270-293 | At most one transmission, a decision, in phase prepared; in any later phase the validator refuses it |
| TopologyWorkflow.TopologyClient.Admit | products/cpk_server/src/control_plane_kit_servers_cpk_server/client/workflow.py:294-313 | At most one transmission, an admission, and none if there is an execution request or no approval |
| TopologyWorkflow.TopologyClient.ClaimRun | products/cpk_server/src/control_plane_kit_servers_cpk_server/client/workflow.py:314-326 | At most one transmission, a claim, and none if there is a run |
| TopologyWorkflow.TopologyClient.StartRun | products/cpk_server/src/control_plane_kit_servers_cpk_server/client/workflow.py:328-341 | At most one transmission, a start, only of a claimed run |
| TopologyWorkflow.TopologyClient.ExecuteOnce | products/cpk_server/src/control_plane_kit_servers_cpk_server/client/workflow.py:344-376 | At most one transmission, an execute; goes on to executed when completed and to executing when progressed, and reports anything else |
| TopologyWorkflow.TopologyClient.ExecuteRun | products/cpk_server/src/control_plane_kit_servers_cpk_server/client/workflow.py:342-382 | The loop ends executed or with a report, one accepted request per round, and the request budget is always spent before the loop is |
| TopologyWorkflow.TopologyClient.AdvanceGraph | products/cpk_server/src/control_plane_kit_servers_cpk_server/client/workflow.py:383-440 | At most one transmission, an advancement, only of an executed journal and only if the pointer read last is the plan's base pointer |
| TopologyWorkflow.TopologyClient.FindBase | products/cpk_server/src/control_plane_kit_servers_cpk_server/client/workflow.py:384-407 | Goes on only if the workspace, read now, shows the plan's base pointer; otherwise an error or a journalled attention |
| TopologyWorkflow.TopologyClient.Observe | products/cpk_server/src/control_plane_kit_servers_cpk_server/client/workflow.py:441-469 | Converged is reported and journalled only after a read that shows the desired pointer |
| TopologyWorkflow.TopologyClient.SettlePlan | products/cpk_server/src/control_plane_kit_servers_cpk_server/client/workflow.py:192-205 | The plan is read and checked, and recorded when its coordinates are missing |
| TopologyWorkflow.TopologyClient.CheckApproval | products/cpk_server/src/control_plane_kit_servers_cpk_server/client/workflow.py:206-242 | Goes on only with consent, and to a decision only when the approval read is pending |
| TopologyWorkflow.TopologyClient.CheckProgress | products/cpk_server/src/control_plane_kit_servers_cpk_server/client/workflow.py:243-261 | Sends nothing; goes on with a run only if the public reads, made now, report the status of the journal's phase, for an executed journal also a succeeded run and for an advanced one the desired pointer |
| TopologyWorkflow.TopologyClient.Request | products/cpk_server/src/control_plane_kit_servers_cpk_server/client/workflow.py:530-561 | One request and its folded response, or a report; raises for an invalid journal only in a phase the route does not belong to |
| TopologyWorkflow.TopologyClient.Mutate | products/cpk_server/src/control_plane_kit_servers_cpk_server/client/workflow.py:530-561 | The request is in the journal file, reported stored, before it is sent; over budget or in a wrong phase nothing is sent |
| TopologyWorkflow.TopologyClient.Announce | products/cpk_server/src/control_plane_kit_servers_cpk_server/client/workflow.py:545-560 | The request is written ahead: on success every journal the file may hold knows it; refused exactly in a phase the validator does not allow |
| TopologyWorkflow.TopologyClient.DispatchPending | products/cpk_server/src/control_plane_kit_servers_cpk_server/client/workflow.py:586-659 | At most one transmission, of the pending request; a bound answer is folded in and written, after anything else that is reported the file holds the journal it held |
| TopologyWorkflow.TopologyClient.Fold | products/cpk_server/src/control_plane_kit_servers_cpk_server/client/workflow.py:643-659 | The folded journal passes the validator; the second budget test is never true |
| TopologyWorkflow.TopologyClient.Transmit | products/cpk_server/src/control_plane_kit_servers_cpk_server/client/transport.py:54-125 | At most one request is sent, and only a server that applied it answers with success |
| TopologyWorkflow.TopologyClient.ReplayPending | products/cpk_server/src/control_plane_kit_servers_cpk_server/client/workflow.py:563-584 | Transmits exactly the journalled request, or nothing when the graph file or the digest no longer fits |
| TopologyWorkflow.TopologyClient.FinishPrepare | products/cpk_server/src/control_plane_kit_servers_cpk_server/client/workflow.py:475-528 | Journals the settled phase and result; the validator stops it only for more than 128 activities |
| TopologyWorkflow.TopologyClient.RecordPrepared | products/cpk_server/src/control_plane_kit_servers_cpk_server/client/workflow.py:475-500 | The prepared plan is read, agrees with the journal, and completes the coordinates |
| TopologyWorkflow.TopologyClient.Settle | products/cpk_server/src/control_plane_kit_servers_cpk_server/client/workflow.py:518-528 | The journal written is the settled one, and the write is refused exactly for more than 128 activities |
| TopologyWorkflow.TopologyClient.Attention | products/cpk_server/src/control_plane_kit_servers_cpk_server/client/workflow.py:661-680 | The attention result of this operation, with the given execution, advancement and next read; the validator accepts it, and on success it is in the journal file |
| TopologyWorkflow.TopologyClient.PublicStatus | products/cpk_server/src/control_plane_kit_servers_cpk_server/client/workflow.py:765-899 | The result is about this operation; a status other than attention-required is the one its phase stands for, with nothing pending, and for an advanced or converged journal only after a read of the current graph that showed the desired pointer; the journal file is not touched |
| TopologyWorkflow.TopologyClient.Report | products/cpk_server/src/control_plane_kit_servers_cpk_server/client/workflow.py:682-753 | The result is about this operation and its status is attention-required or the one the phase stands for |
| TopologyWorkflow.TopologyClient.Status | products/cpk_server/src/control_plane_kit_servers_cpk_server/client/workflow.py:471-473 | The same for `status`, which takes no lock: of the journal the file held when it was loaded, while other processes may go on before, during and after; it sends nothing itself |
| TopologyWorkflow.TopologyClient.Put | products/cpk_server/src/control_plane_kit_servers_cpk_server/client/journal.py:232-260 | Reported stored, the file holds the new journal for good; failing, it holds the old journal, or the new one with the old still possible after a power loss; the validator's error comes exactly for an invalid one |
| TopologyWorkflow.TopologyClient.Initialize | products/cpk_server/src/control_plane_kit_servers_cpk_server/client/journal.py:204-230 | Reported stored, the file holds the new journal for good; failing, it holds none, or the new one that may still vanish with the power; the validator's error comes exactly for an invalid one |
| TopologyWorkflow.Environment.EndedSendsNothing | products/cpk_server/src/control_plane_kit_servers_cpk_server/client/workflow.py:262-293 | Whatever calls were made since, while the power stayed on, an operation that had ended has sent nothing more |
| TopologyWorkflow.Environment.LosePower | products/cpk_server/src/control_plane_kit_servers_cpk_server/client/journal.py:249-257 | A power loss leaves one of the journals the file may hold, and only that one from then on; requests stay accounted for exactly if it knows every key that was sent |
| TopologyWorkflow.Environment.Accounts | products/cpk_server/src/control_plane_kit_servers_cpk_server/client/workflow.py:540-659 | Whatever calls were made, if the power has not failed since the journal knew every sent key, or ever, it knows them all and the server has applied what it accepted and at most the pending request |
| JournalStore.JournalStore.Create | products/cpk_server/src/control_plane_kit_servers_cpk_server/client/journal.py:204-230 | Wherever it stops, the path holds what it held or the complete new document; an existing journal is never replaced; someone else's partial file is left and makes it fail; on success every crash shows the new document and no partial is left; it succeeds when nothing is there and no call goes wrong |
| JournalStore.JournalStore.Write | products/cpk_server/src/control_plane_kit_servers_cpk_server/client/journal.py:232-260 | Wherever it stops, the path holds the complete old or the complete new document; a missing journal or someone else's partial file makes it fail without a change; on success every crash shows the new document; it succeeds when a journal and no partial is there and no call goes wrong |
| JournalStore.JournalStore.WriteOwnedPartial | products/cpk_server/src/control_plane_kit_servers_cpk_server/client/journal.py:702-725 | On success a new file with the whole document, synced, under the partial name, in spite of short writes; otherwise nothing is published, and only the partial made here is removed |
| JournalStore.JournalStore.UnlinkOwnedPartial | products/cpk_server/src/control_plane_kit_servers_cpk_server/client/journal.py:747-755 | Only the entry that still names the given file is removed |
| JournalStore.WithinSurvives | products/cpk_server/src/control_plane_kit_servers_cpk_server/client/journal.py:204-260 | After an operation a crash shows only what a crash could have shown before it, or the new document |
| JournalStore.StoredSurvives | products/cpk_server/src/control_plane_kit_servers_cpk_server/client/journal.py:252-257 | After a reported success a crash shows the new document only |
| JournalStore.Moves | products/cpk_server/src/control_plane_kit_servers_cpk_server/client/journal.py:213-257 | Once the complete, synced partial is linked or renamed, every later point, with or without the directory sync and the unlink, stays within those bounds |
| JournalStore.Lifetime | products/cpk_server/src/control_plane_kit_servers_cpk_server/client/journal.py:112-260 | Over any sequence of creates, writes, faults, process deaths and power losses the path holds the last document reported stored or one attempted since, whole |
| JournalStore.StalePartialBlocks | products/cpk_server/src/control_plane_kit_servers_cpk_server/client/journal.py:702-708 | While a partial file left by a crash is there, no create or write succeeds or changes anything |
| JournalFile.WriteJournal | products/cpk_server/src/control_plane_kit_servers_cpk_server/client/journal.py:232-260 | What a write of the store leaves on the disk is the protocol's world after its reported step, or after a failure the world as it was or after its unreported step |
| JournalFile.CreateJournal | products/cpk_server/src/control_plane_kit_servers_cpk_server/client/journal.py:204-230 | The same for a creation |
| JournalFile.RestartFinds | products/cpk_server/src/control_plane_kit_servers_cpk_server/client/journal.py:112-176 | What a restart finds on the disk is the world as it was, or after a power loss |
| Pager.ReadAll | products/cpk_server/src/control_plane_kit_servers_cpk_server/client/workflow.py:939-981 | At most 16 reads with distinct cursors; the result is every item of a history read to its end, or an error exactly when no acceptable reading to the end exists |
| Pager.HonestIsAllOrNothing | products/cpk_server/src/control_plane_kit_servers_cpk_server/client/workflow.py:939-981 | Against a server with honest cursors over a finite log, the result is exactly the log, and it is refused only when the end was not reached within 16 pages |
| Pager.SixteenHundred | products/cpk_server/src/control_plane_kit_servers_cpk_server/client/workflow.py:31-32 | With full pages, a log can be read if and only if it has at most 1600 items |
| Pager.BrokenNeverCompletes | products/cpk_server/src/control_plane_kit_servers_cpk_server/client/workflow.py:954-981 | Once a page or a cursor is refused, no continuation could have completed |
| ReplayCache.GatewayProbeReplayCache.RememberOnce | products/cpk_local_gateway/src/control_plane_kit_servers_cpk_local_gateway/verification.py:79-95 | The call is the next of the lock-ordered sequence, and accepts as the sequence's definition says |
| ReplayCache.RemembersOutstanding | products/cpk_local_gateway/src/control_plane_kit_servers_cpk_local_gateway/verification.py:79-95 | An entry is in the cache if and only if its call was accepted and no clock sampled since has reached its expiry; it holds that expiry |
| ReplayCache.RefusedExactlyWhileHeld | products/cpk_local_gateway/src/control_plane_kit_servers_cpk_local_gateway/verification.py:79-95 | A token is refused if and only if there is no room, or it was accepted before and no call since, this one included, sampled a clock at or past its expiry |
| ReplayCache.NeverOverCapacity | products/cpk_local_gateway/src/control_plane_kit_servers_cpk_local_gateway/verification.py:90-95 | No sequence of calls leaves more entries than the capacity |
| ReplayCache.Ed25519GatewayProbeVerifier.Verify | products/cpk_local_gateway/src/control_plane_kit_servers_cpk_local_gateway/verification.py:125-140 | The cache is asked last and only for an attempt everything else admits; any other attempt is refused with the code of the first failing check and changes nothing |
| ReplayCache.AcceptedTwiceWithinSkew | products/cpk_local_gateway/src/control_plane_kit_servers_cpk_local_gateway/verification.py:217-223 | The verifier's window outlasts the cache's memory by the skew: with any skew a token is accepted a second time inside its window |
| QueryCodec.StrictPercentDecode | products/cpk_server/src/control_plane_kit_servers_cpk_server/boundary.py:271-287 | The loop computes the decoding of section 2.1 of RFC 3986, refusing every incomplete or malformed escape |
| QueryCodec.DecodeQuoted | products/cpk_server/src/control_plane_kit_servers_cpk_server/boundary.py:271-287 | Decoding inverts percent encoding for every string of bytes |
| QueryCodec.DecodedLength | products/cpk_server/src/control_plane_kit_servers_cpk_server/boundary.py:271-287 | The output is shorter than the input by two bytes an escape |
| QueryCodec.PlusRoundTripExactly | products/cpk_server/src/control_plane_kit_servers_cpk_server/client/transport.py:85 | Decoding inverts the client's `urlencode` of a value if and only if it has no space |
| ClientQueries.ClientQueryExactly | products/cpk_server/src/control_plane_kit_servers_cpk_server/client/transport.py:77-85 | The server reads the client's whole query, in either order of fields, as its limit and its cursor with every space of the text turned into a plus sign, and refuses it exactly if that makes two keys one or the cursor is too deep; so it reads what was meant if and only if the cursor's text has no space and the cursor is not too deep |
| ClientQueries.PrintPlussed | products/cpk_server/src/control_plane_kit_servers_cpk_server/client/transport.py:83 | Turning the spaces of a printed JSON value into plus signs gives the print of the value with the spaces in its strings and keys turned |
| QueryCodec.DecodeReadQuery | products/cpk_server/src/control_plane_kit_servers_cpk_server/boundary.py:228-268 | The loop over fields takes them one by one from the left and refuses the whole query at the first bad one |
| QueryCodec.TakeField | products/cpk_server/src/control_plane_kit_servers_cpk_server/boundary.py:238-267 | One field: name, duplicate, decimal, parse, object and depth checks in their order |
| QueryCodec.QueryRoundTrip | scripts/cpk_server_hosted_activity.py:1136-1152 | The rendered limit and cursor object decode to exactly that pair, in either field order |
| QueryCodec.NoDuplicates | products/cpk_server/src/control_plane_kit_servers_cpk_server/boundary.py:246-247 | An accepted query has as many fields as arguments |
| QueryCodec.AcceptedIsBounded | products/cpk_server/src/control_plane_kit_servers_cpk_server/boundary.py:248-267 | An accepted limit is positive and an accepted cursor is an object that nests at most 64 containers |
| QueryCodec.DecimalIsRead | products/cpk_server/src/control_plane_kit_servers_cpk_server/boundary.py:249-253 | Every positive number is rendered as digits without a leading zero and read back |
| JsonNesting.Nesting | products/cpk_server/src/control_plane_kit_servers_cpk_server/boundary.py:310-322 | The explicit stack computes the smaller of the recursive depth and 65, early return included |
| PathTemplates.Fill | products/cpk_server/src/control_plane_kit_servers_cpk_server/client/transport.py:66-72 | The loop of text replacements, with the empty-value and the brace check |
| PathTemplates.ReplaceFills | products/cpk_server/src/control_plane_kit_servers_cpk_server/client/transport.py:70 | One text replacement over a rendered template is one substitution of that placeholder, and of no other |
| PathTemplates.FillIsByName | products/cpk_server/src/control_plane_kit_servers_cpk_server/client/transport.py:66-72 | The path depends on the values by name only, not on their order, and filling fails exactly when a value is empty or a placeholder is left |
| PathTemplates.MatchIsLongest | products/cpk_server/src/control_plane_kit_servers_cpk_server/boundary.py:195-199 | Greedy matching finds a reading whenever there is one, with every capture the longest of any reading |
| PathTemplates.MatchReads | products/cpk_server/src/control_plane_kit_servers_cpk_server/boundary.py:195-199 | What it finds is a reading of the path |
| PathTemplates.PathRoundTrip | products/cpk_server/src/control_plane_kit_servers_cpk_server/boundary.py:193-199 | For templates whose placeholders are identifiers and paths as they are sent, matching reads back exactly the quoted value of every placeholder, and each decodes to the value the client was given |
| PathTemplates.DecodedRoundTripExactly | products/cpk_server/src/control_plane_kit_servers_cpk_server/server.py:517-526 | Over the path percent-decoded, matching reads back exactly the values the client was given if and only if none of them holds a slash |
| PathTemplates.FillIsInjective | products/cpk_server/src/control_plane_kit_servers_cpk_server/client/transport.py:66-72 | Two sets of values that lead to one path agree on every placeholder |
| DependencyPins.NoOverlap | scripts/apply_coordinates.py:170-186 | Two matches of any of the three patterns are the same match or share no position |
| DependencyPins.SubRewrites | scripts/apply_coordinates.py:170-174 | Leftmost substitution replaces the forty digits of every match and touches nothing else |
| DependencyPins.SameMatches | scripts/apply_coordinates.py:170-186 | It creates no match and destroys none, of any pattern |
| DependencyPins.LastWriteWins | scripts/apply_coordinates.py:170-174 | Substituting a second commit is substituting it alone; in particular substitution is idempotent |
| DependencyPins.SubsCommute | scripts/apply_coordinates.py:170-186 | Substitutions of two patterns commute |
| DependencyPins.LaterPinsWin | scripts/apply_coordinates.py:163-186 | Rewriting with one set of commits and then another is rewriting with the other |
| DependencyPins.PassesRewriteExactly | scripts/apply_coordinates.py:163-186 | After the three passes every pin holds its repository's commit; length, matches and all other positions are as before |
| DependencyPins.UnchangedWhenCurrent | scripts/apply_coordinates.py:163-186 | A text is left alone if and only if every pin in it is current |
| CoordinateUpdates.SetAllAgain | scripts/apply_coordinates.py:193-200 | Assigning a second set of members to an ordered object is assigning it alone, wherever the members stood |
| CoordinateUpdates.CoordinatesAgain | scripts/apply_coordinates.py:193-203 | So for an image with its coordinates and the source commit of its provenance |
| CoordinateUpdates.LaterCoordinatesWin | scripts/apply_coordinates.py:189-203 | And for a whole descriptor; editing fails after an edit exactly when it failed before |
| CoordinateUpdates.GenerateUpdates | scripts/apply_coordinates.py:96-160 | The loop computes the updates: rewritten pins, every product's descriptor with later products over earlier ones, and the catalogue over all |
| CataloguePublication.Load | src/control_plane_kit_servers/catalogue.py:103-121 | The loop over declarations refuses a product id that was there before; the result is the function that the lemmas are about |
| CataloguePublication.LoadedIsSorted | src/control_plane_kit_servers/catalogue.py:103-121 | What loads is valid, in ascending order of product ids, and has no id twice |
| CataloguePublication.SortedAlike | src/control_plane_kit_servers/catalogue.py:155-166 | The publication does not depend on the order of the products |
| CataloguePublication.CatalogueLoads | scripts/apply_coordinates.py:127-160 | The catalogue generated from loaded coordinates passes every check of the loader, and loads as its products in the order of their ids |
| CataloguePublication.PublishedLoads | src/control_plane_kit_servers/catalogue.py:155-176 | The published catalogue loads as exactly the declarations of its source |
| CataloguePublication.AppliesExactly | scripts/apply_coordinates.py:42-55 | An apply of loaded coordinates raises exactly if generating does: what is generated can always be published |
| CataloguePublication.LaterUpdatesWin | scripts/apply_coordinates.py:42-60 | Applying coordinates and then new ones for the same descriptors generates and leaves the same files as the new ones alone, packaged catalogue and digest included, provided that no descriptor is one of the files written after it |
| CataloguePublication.ApplySettles | scripts/apply_coordinates.py:42-60 | After an apply, generating again gives identical files, `--check` finds nothing stale and another apply changes nothing, if and only if no product's descriptor is the catalogue, the packaged catalogue or its digest; otherwise generating raises |
| PhaseLedger.RunSourceLivePhases | scripts/cpk_server_source_live_report.py:198-235 | The ledger gains exactly the trace of the outcomes, numbered on; phases after the first that does not return evidence are not run; the cleanup runs once if and only if a phase failed; the error keeps the primary code whatever the cleanup does |
| PhaseLedger.FinishFailedRun | scripts/cpk_server_source_live_report.py:238-279 | The failed line, one skipped line for every later phase, the cleanup's lines, and both codes |
| PhaseLedger.SourceLivePhaseLedger.Emit | scripts/cpk_server_source_live_report.py:163-195 | Records are numbered from 1 without gaps |
| PhaseLedger.TraceByPlace | scripts/cpk_server_source_live_report.py:198-279 | Every line of every trace by its place |
| PhaseLedger.OneTerminalEach | scripts/cpk_server_source_live_report.py:198-279 | Each phase is closed exactly once and in order: succeeded up to the first failure, failed, skipped after it; the cleanup is closed last exactly when a phase failed |

## Left out

- HTTP, sockets, TLS, credentials and redirects: a transmission is a step with an arbitrary outcome.
- The server's own behaviour (planning, coordination, graph compilation): not shown in this repository, arbitrary here.
- Ed25519, JSON web tokens, SHA-256, UTF-8 and the JSON library: signature and claims are given, digests are injective, printing and parsing are an inverse pair on values without duplicate members; NaN and lone surrogates are not represented. `ClientQueries` prints strings, keys and containers itself.
- File ownership, modes, symbolic links and the reading loop of `JournalStore.read`: names, file identities, contents and syncing only. Processes that do not take the lock do not interfere.
- `mutation_lock`: represented by a call that may fail because another process holds it, and by one process at a time.
- The 1 MiB bound of an encoded journal and the schema bound of a request: a request over its encoding bound is refused nondeterministically in `Mutate`, the journal's byte bound is not represented.
- Health and freshness members of a client result: constants.
- TopologyWorkflow.TopologyClient.ReadDesired: does not model the checks of a desired file beyond its size; the graph it holds is determined by its bytes.
- TopologyWorkflow.TopologyClient.ReadRuns: yields arbitrary items; the paging behind it is Pager.ReadAll.
- TopologyWorkflow.TopologyClient.Apply: does not name the reason of an error other than the validator's; that it converges without trouble is stated for a journal without a run, since with one the reads of the run's status decide whether it goes on.
- PathTemplates.MatchIsLongest: does not model the compilation of a template to a regular expression; templates are sequences of whole segments, and a literal with a character that means something in a regular expression is outside the model.
- PathTemplates.DecodedRoundTripExactly: does not model what else the web framework does to a decoded path, such as cutting it at `?` or `#`.
- QueryCodec.DecodeReadQuery: does not say which error message is returned; a refusal is one value.
- CataloguePublication.ApplySettles: does not model the coordinates file itself as a descriptor, nor files that are the same by links.
- PhaseLedger.RunSourceLivePhases: does not model an output that fails to be written.
- ReplayCache.Ed25519GatewayProbeVerifier.Verify: does not model how header, key id and token are parsed; they are a given refusal or given claims.
- `run_public_graph_convergence` and the hosted scripts: they drive the same protocol without durable state.
- Profile parsing, server bootstrap, catalogue and package checks, the router, multiplexer and hello servers, rendering of results: validation branch by branch, or plumbing.
