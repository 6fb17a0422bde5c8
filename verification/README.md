# YFS protocols in Dafny

YFS is a replicated lock and file service built in layers: RPC with at-most-once calls, Paxos over a
durable log, views and their primary, a replicated state machine, and caching lock and extent clients.
This project models the logic of those layers and proves what they promise over every run. Each layer has
the same shape:

- the handlers and loops of the code as functions on plain states, and as classes whose methods change
  their fields in place and are proved against those functions;
- a transition system whose events run these functions over a network that loses, delays, repeats and
  reorders messages, with crashes, restarts, time-outs and late deliveries as events of their own;
- an invariant that every event keeps, and theorems about every reachable state;
- where a theorem needs an assumption about the environment, that assumption as a predicate on events, and a
  run that shows what goes wrong without it.

`dafny verify dfyconfig.toml` checks the whole project.

## Layers

| files | what they hold |
|---|---|
| `Options`, `Text`, `Proposal`, `Quorum`, `ViewText`, `PaxosLog` | optional values; printing and parsing of numbers, tokens and lines; proposal order; majorities; the text of a view; log records |
| `Acceptor`, `Proposer`, `PaxosSystem`, `PaxosInvariant`, `PaxosSteps`, `PaxosTheorems`, `PaxosCounter` | Paxos with reconfiguration, one instance per view |
| `Views` | membership changes, the heartbeater's choice, the primary of a view |
| `Rsm`, `RsmSystem`, `RsmInvariant`, `RsmSteps`, `RsmTheorems`, `RsmPrimary`, `RsmSurvival`, `RsmCounter` | primary and backups, view change and state transfer |
| `Extent`, `LockClient`, `LockSystem`, `LockProofs`, `LockTheorems`, `LockLoss`, `LockCounter` | write-back extent cache and caching lock client as one coherent store |
| `RpcWindow`, `RpcServer`, `RpcClient`, `RpcSystem`, `RpcProofs`, `RpcTheorems`, `RpcCode` | the client's window of answered xids, the server's reply window, at-most-once calls |
| `Wire`, `WireProofs`, `WireOrder`, `Marshal` | the wire format, its round trip, the order of map keys, and the growing buffer |

## Assumptions, each a predicate or a shape of the model

- `PaxosSystem.Timely`: no prepare reaches an acceptor that is behind, an accept reaches only an acceptor
  working on its instance, and a node takes over the log only of a node that is ahead of it. The code checks
  none of this. Agreement is proved for every timely run. For each of the three clauses `PaxosCounter` has a
  run from the first boot with one event that breaks it and everything else timely, after which two nodes
  hold different values for one instance.
- `RsmSystem.Ready`: a request enters a round only at the primary outside a view change. `RsmSystem.Drained`:
  a node starts to follow only when no client round is left at it. Agreement per viewstamp, equal states for
  equal stamps and complete syncs (`RsmTheorems`) assume these two and nothing else, so they hold also when
  members of a view take different nodes for its primary.
- For the survival of acknowledged requests (`RsmSurvival`) three more. `RsmSystem.FromLeader`: a transfer is
  answered only by a node that leads. `RsmSystem.Informed`: a node learns a view in turn as a member of the view
  before, or when some node has committed it; `PaxosTheorems.CommitsAreInformed` proves this of every event that
  moves an acceptor. `RsmSystem.Prepared`: whoever starts to lead was a member of the last view that finished.
  `RsmTheorems.StateKeepsExactlyWhen` says without these three exactly when acknowledged requests are kept.
- For each of these five, `RsmCounter` has a run from the first boot that meets the others it is assumed with
  and in which the theorem fails.
- `RsmSystem.Named`: a node that commits a view, next in turn or not, holds as primary a node that is not in
  that view or is its head. `RsmPrimary.CommitsName` proves for every run that this is exactly when it names the
  common primary; `RsmPrimary.NamedMeansFromLeader` that runs which meet it meet `FromLeader`.
- Executing a request and committing a view do not overlap at one node, and the recovery thread is woken only
  by a newer view.
- A restarted replica is a new node with viewstamp (0,0). Requests run deterministically, so the service
  state is the sequence of requests executed.
- The lock server grants a lock only when it is free, keeps it owned until the owner's release is processed,
  and takes each request at most once; the extent store is a map. Callers use an extent only while holding
  its lock.
- Client nonces are distinct and server nonces are fresh and not zero.
- Numbers that the code keeps in machine words (xids, sequence numbers, proposal numbers) are unbounded.

## Where the code departs from its own comments

- `client_invoke` notes that it is busy or not the primary and then goes on. The model does the same:
  `RsmCounter.UnreadyNodesDisagree` shows two nodes executing different requests under one stamp, and the
  theorems assume `Ready`.
- `transferreq` tests `insync` but not whether the node leads, and a node that follows is `insync` as well.
  `RsmCounter.FollowerAnswerLosesRequest` shows a node that takes over the state of a follower, loses a request
  it had answered, and finishes a view without it. Survival assumes `FromLeader`.
- Only `sync_with_backups` waits for a client round to end. `RsmCounter.RoundBreaksSync` shows a backup that
  confirms a sync and then executes an old request. The theorems assume `Drained`.
- `acceptreq` ignores the instance it is sent, and `preparereq` also promises when the node is behind.
- `set_primary` takes the first old member in list order, not the one with the lowest number.
- `transferdonereq` compares only `vid_commit` and does not look at `insync`. `RsmTheorems.SyncIsComplete`
  holds all the same.
- A joining node commits the newest view at once. `Views.JumpAgreesExactlyWhen` says exactly when it then
  names the same primary as the nodes that committed views in turn; `Views.JumpSplitsPrimary` is a chain of
  views where it does not.
- The theorems of `RpcTheorems` are about `checkduplicate_and_update` as its comment describes it, with the
  low-water mark the comment implies. `RpcCode` models the body as written, which differs: it takes the front
  of the list for that mark, reads the front of an empty list, skips the entry after each erased one and can
  read past the end. `CodeExactly` gives every verdict of the body for every list and request.
  - Against `NoCallIsToldForgotten` and the no-refusal part of `WaitingCallIsRemembered`: a call never seen
    is refused whenever every listed call is younger (`RefusesUnseenExactlyWhen`), as in
    `CodeRefusesUnseenCall`, where calls 5 and 6 arrive before call 4. The other parts, that a waiting call is
    kept and not run again, hold of the body as well (`WaitingCallIsKept`).
  - Against `AtMostOnce`, and with it `RepliesAgree` and `ResultIsFromTheOneRun`: a call that ran is run again
    exactly under the condition of `RunsAgainExactlyWhen`; `CodeRunsCallAgain` is such a run.
- `update_xid_rep` can leave copies of the front behind it (`RpcWindow.FrontCanRepeat`); nothing depends on it.
- The return of an old release call can overwrite a lock record that was granted since: the lock is then
  owned at the server and held by nobody. `LockTheorems.LostExactlyWhen` names the losing steps exactly,
  `LockLoss.ConservedExactlyWhen` says that a run keeps a lock if and only if it has none of them, and
  `LockCounter.LockCanBeLost` is a losing run with no failed call. No step ever duplicates a lock.

## Model

| member | source | states |
|---|---|---|
| `Proposal.GreaterIsStrictTotal` | src/paxos/paxos.cc:19-25 | proposal numbers are strictly and totally ordered, and `>=` is the complement of the reversed `>` |
| `Proposal.GreaterIsByRoundThenName` | src/paxos/paxos.cc:19-21 | the higher number wins, and between equal numbers the name that is greater at the first difference |
| `Proposal.GreaterTransitive` | src/paxos/paxos.cc:19-21 | the order is transitive |
| `Proposal.AtLeastTransitive` | src/paxos/paxos.cc:23-25 | so is `>=` |
| `Quorum.IsAMember` | src/paxos/paxos.cc:37-42 | the search loop decides membership |
| `Quorum.ComputeMajority` | src/paxos/paxos.cc:51-62 | the counting loop answers yes if and only if twice the number of positions of the first list that hold a name of the second exceeds its length |
| `Quorum.MajorityOrRest` | src/paxos/paxos.cc:51-62 | of a list of names and the rest of a member list of odd length exactly one is a majority, of an even one at most one |
| `Quorum.MajorityIsMoreThanHalf` | src/paxos/paxos.cc:51-62 | the recursive count used by the proofs decides the same as the number of positions |
| `Quorum.MajoritiesOverlap` | src/paxos/paxos.cc:51-62 | two lists that are majorities of the same member list share one of its members, duplicates or not |
| `ViewText.ComputeValue` | src/rsm/config.cc:104-111 | the loop writes the text of a view |
| `ViewText.ComputeMembers` | src/rsm/config.cc:94-102 | the loop reads the tokens of a text |
| `ViewText.MembersOfValue` | src/rsm/config.cc:94-111 | reading a written view gives it back if and only if every name is a nonempty token without white space |
| `ViewText.MembersSplit` | src/rsm/config.cc:94-102 | any white space separates names and does nothing else, for every text |
| `ViewText.ValueSplits` | src/rsm/config.cc:104-111 | the text of a view is that of its members in order |
| `ViewText.ValueIsLine` | src/rsm/config.cc:104-111 | the text of a view fits on one line of the log |
| `PaxosLog.PrintLogAppend` | src/log/log.cc:77-118 | appending a record to the file appends it to the list of records |
| `PaxosLog.ReadRecordBack` | src/log/log.cc:23-52 | one turn of the reading loop gives back the record written and stops right behind it |
| `PaxosLog.ReadLogBack` | src/log/log.cc:16-55 | the whole log read back is the log written, record for record |
| `Acceptor.ZeroNamesUnobservable` | src/log/log.cc:33-35 | the name left on a zero proposal number changes no comparison with a real proposal |
| `Acceptor.PrepareKeepsDurable` | src/paxos/paxos.cc:232-257 | after a prepare, replaying the log still gives the live acceptor |
| `Acceptor.AcceptKeepsDurable` | src/paxos/paxos.cc:260-276 | the same after an accept |
| `Acceptor.CommitKeepsDurable` | src/paxos/paxos.cc:299-318 | the same after a commit |
| `Acceptor.BootIsLive` | src/paxos/paxos.cc:207-224 | a process started on the log is the acceptor that wrote it, up to names on zero numbers |
| `Acceptor.RestoreCopies` | src/paxos/paxos.cc:325-330 | taking over a log merges the instances, the taken-over ones winning; if the log holds a commit, promise, vote and instance are the source's, and a taker with no instance of its own is durable again |
| `Acceptor.AcceptorNode.constructor` | src/paxos/paxos.cc:207-224 | on any file: stops at a record it cannot read, else is the acceptor the records describe, and the first node writes instance 1 |
| `Acceptor.AcceptorNode.ReadLogFile` | src/log/log.cc:16-55 | the reading loop on any file: it stops exactly when a record cannot be read, else folds the records over the fields |
| `Acceptor.AcceptorNode.LogInstance` | src/log/log.cc:77-88 | a file that is the text of some records becomes the text of those and one done record |
| `Acceptor.AcceptorNode.LogProp` | src/log/log.cc:90-102 | the same with a propseen record |
| `Acceptor.AcceptorNode.LogAccept` | src/log/log.cc:104-118 | the same with an accepted record |
| `Acceptor.AcceptorNode.PrepareReq` | src/paxos/paxos.cc:232-257 | old instance, promise or reject, each case with its reply, its fields and its line of the file |
| `Acceptor.AcceptorNode.AcceptReq` | src/paxos/paxos.cc:260-276 | votes exactly at numbers not below the promise, whatever the instance, and appends the vote to the file |
| `Acceptor.AcceptorNode.CommitWo` | src/paxos/paxos.cc:299-318 | a newer instance is stored and logged and resets promise and vote; an older one changes nothing |
| `Acceptor.AcceptorNode.DecideReq` | src/paxos/paxos.cc:279-297 | commits, ignores, or stops without effect exactly where a VERIFY fails |
| `Acceptor.HandlersAppend` | src/paxos/paxos.cc:232-318 | prepare, accept and commit only add records behind those the file held, and nothing they do depends on it |
| `Proposer.GatherIsBest` | src/paxos/paxos.cc:132-170 | prepare() collects exactly the promising nodes and, among their replies with a vote, the value of the first with the highest number |
| `Proposer.GatherIsTicked` | src/paxos/paxos.cc:149-169 | the nodes collected are those of the list that promised, in its order, repeats included |
| `Proposer.GatherIsOld` | src/paxos/paxos.cc:157-159 | prepare() ends with an old instance if and only if some reply has one, and with the value of the first |
| `Proposer.OldIsFinal` | src/paxos/paxos.cc:157-159 | an old-instance reply ends prepare() with that reply's value |
| `Proposer.AcceptersAre` | src/paxos/paxos.cc:172-190 | accept() collects exactly the nodes that voted |
| `Proposer.ProposerNode.constructor` | src/paxos/paxos.cc:64-75 | the proposer starts at number 0 |
| `Proposer.ProposerNode.SetN` | src/paxos/paxos.cc:77-80 | the new number is one above the acceptor's promise or the last number used, and above both |
| `Proposer.ProposerNode.Prepare` | src/paxos/paxos.cc:137-170 | the loop over the nodes computes that collection |
| `Proposer.ProposerNode.Accept` | src/paxos/paxos.cc:174-190 | the loop over the nodes computes those voters |
| `Proposer.ProposerNode.Run` | src/paxos/paxos.cc:82-130 | for all replies of all nodes: the value of the first old-instance reply if there is one; failure if the promising nodes are not more than half; else the value of the highest number promised, or the proposer's own if none has one, agreed on if and only if the voters are more than half |
| `Proposer.RunOutcomeIs` | src/paxos/paxos.cc:82-130 | the function of run() that the proofs use meets that description |
| `Proposer.OneOutcome` | src/paxos/paxos.cc:82-130 | which leaves one result for each input |
| `PaxosSystem.RunIsEvents` | src/paxos/paxos.cc:82-130 | run() ends as the events that close its two phases in the Paxos system do, with the same value and voters |
| `PaxosInvariant.OneRunPerNumber` | src/paxos/paxos.cc:82-130 | at most one run per instance and number gets past prepare |
| `PaxosInvariant.ChosenStays` | src/paxos/paxos.cc:137-190 | once a majority voted for a run's value, whatever became of the run, every run above its number asks for that value |
| `PaxosInvariant.ChosenOnce` | src/paxos/paxos.cc:137-190 | two values of an instance that majorities voted for are equal |
| `PaxosInvariant.Agreement` | src/paxos/paxos.cc:232-318 | one value per instance, by induction over instances, each with the quorum the one before decided |
| `PaxosSteps.StepKeepsInv` | src/paxos/paxos.cc:82-330 | every timely event of the Paxos system keeps the invariant |
| `PaxosSteps.RunKeepsInv` | src/paxos/paxos.cc:82-330 | so does every timely run |
| `PaxosTheorems.NodesAgree` | src/paxos/paxos.cc:82-323 | nodes that commit an instance commit the same value and so ask the same quorum next, over loss, reordering, crashes with replay, and joins |
| `PaxosTheorems.NumbersAreUnique` | src/paxos/paxos.cc:77-112 | two runs of an instance in the accept phase under one number are one run, even after a restart reuses numbers |
| `PaxosTheorems.ChosenValueStays` | src/paxos/paxos.cc:137-190 | in every run: once a majority voted for a value, even if no reply arrives and the proposer is gone, every accept of the instance at a higher number carries it |
| `PaxosTheorems.OneChosenValue` | src/paxos/paxos.cc:137-190 | an instance has at most one value that a majority voted for |
| `PaxosTheorems.VotesAtPromiseOnly` | src/paxos/paxos.cc:260-276 | a timely accept is taken if and only if its number equals the promise, although the code asks only for not below |
| `PaxosTheorems.DecideNeverAborts` | src/paxos/paxos.cc:279-297 | neither VERIFY of decidereq fails |
| `PaxosTheorems.ReplayIsLive` | src/log/log.cc:16-55 | in every reached state, parsing and folding the written log gives the live acceptor |
| `PaxosTheorems.CommittedChange` | src/rsm/config.cc:159-200 | a committed value is a one-node change of the view committed before it |
| `PaxosTheorems.ViewsChangeByOne` | src/rsm/config.cc:159-200 | committed views are nonempty, duplicate-free, start with the first node alone and change by exactly one node |
| `PaxosTheorems.MembersLearnFirst` | src/paxos/paxos.cc:279-318 | whenever a node has committed a view, so has a member of the view before |
| `PaxosTheorems.CommitsAreInformed` | src/paxos/paxos.cc:279-330 | every event that moves an acceptor to a newer view does so in turn at a member of the view before, or after some node has committed that view |
| `PaxosTheorems.NodesShareChain` | src/rsm/config.cc:123-149 | the views any two nodes committed are chains of one-node changes, one a prefix of the other |
| `PaxosTheorems.NodesNamePrimary` | src/rsm/rsm.cc:528-550 | any two nodes that commit views in turn name the same primary for every view both committed, a member of it |
| `PaxosTheorems.JoinerNamesPrimary` | src/rsm/rsm.cc:156-160 | a joiner that skips views and holds any node as primary names that common primary if and only if the node it holds is not in the new view or is its head |
| `PaxosCounter.AcceptStep` | src/paxos/paxos.cc:260-276 | an accept is taken whatever its instance; it is timely only at an acceptor working on that instance |
| `PaxosCounter.OneLateAcceptBreaksAgreement` | src/paxos/paxos.cc:260-318 | from the first boot of any three nodes, a run with one late accept and all else timely leaves two nodes with different values for instance 4 |
| `PaxosCounter.OneBackwardJoinBreaksAgreement` | src/paxos/paxos.cc:325-330 | the same with one take-over from a node that is not ahead |
| `PaxosCounter.OneEarlyPrepareBreaksAgreement` | src/paxos/paxos.cc:232-257 | the same with one prepare that reaches an acceptor before the decision of the instance before |
| `Views.RemoveFrom` | src/rsm/config.cc:182-187 | the loop drops a node from the member list |
| `Views.WithoutMember` | src/rsm/config.cc:182-187 | dropping a node keeps exactly the others, without duplicates |
| `Views.ChangeShape` | src/rsm/config.cc:159-200 | a one-node change is nonempty, duplicate-free, differs in exactly one node, and keeps a member of the old view |
| `Views.Suspect` | src/rsm/config.cc:225-254 | only a member removes, only a silent other member is removed; the smallest removes the first silent member in the order of the list, the others remove the smallest whenever it is silent |
| `Views.SetPrimary` | src/rsm/rsm.cc:531-550 | the primary stays if it is in the new view, else becomes the first old member in list order that is in the new view, else a VERIFY fails |
| `Views.PrimaryInBoth` | src/rsm/rsm.cc:528-550 | along every chain of views a primary exists, is a member, and from view 2 on was a member of the view before, so the last VERIFY is not reached |
| `Views.PrimaryStays` | src/rsm/rsm.cc:536-539 | the primary changes exactly when it left the view |
| `Views.PrimaryIsHead` | src/rsm/rsm.cc:528-550 | along every chain the primary is the first member of the view |
| `Views.JumpAgreesExactlyWhen` | src/rsm/rsm.cc:156-160 | a node that commits a view without those before, holding any node as primary, names the common primary if and only if that node is not in the view or is its head |
| `Views.JumpSplitsPrimary` | src/rsm/rsm.cc:156-160 | the other case exists: the first node leaves, comes back, and is still named by a joiner |
| `ViewText.WithoutIs` | src/rsm/rsm.cc:205-210 | a list of members without one node: exactly the others, for the backups of a primary and the view after a removal |
| `ViewText.WithoutCounts` | src/rsm/rsm.cc:205-210 | the others as often as before |
| `ViewText.WithoutSplits` | src/rsm/rsm.cc:205-210 | and in the same order |
| `Rsm.Erase` | src/rsm/rsm.cc:465-470 | the loop erases the first occurrence |
| `Rsm.EraseFirstKeeps` | src/rsm/rsm.cc:465-470 | erasing a backup keeps all others |
| `Rsm.EraseCounts` | src/rsm/rsm.cc:465-470 | exactly one occurrence goes, if there is one |
| `Rsm.RsmNode.constructor` | src/rsm/rsm.cc:100-112 | a new replica has stamps (0,0) and (0,1), is in a view change and names the first node as primary |
| `Rsm.RsmNode.ExecuteNext` | src/rsm/rsm.cc:397-399 | the service history grows by the request under the current stamp, which becomes the last one and is advanced |
| `Rsm.RsmNode.ClientInvoke` | src/rsm/rsm.cc:369-401 | if a backup fails the answer is BUSY and nothing changes; if all answer OK the history grows by exactly this request under the old stamp and the answer is OK; the early status only shows when there is no backup |
| `RsmSystem.RoundIsEvents` | src/rsm/rsm.cc:369-401 | client_invoke leaves the replica as the system's failed round does when a backup fails, and as its finished round does when none does |
| `Rsm.RsmNode.Invoke` | src/rsm/rsm.cc:410-427 | outside a view change and at exactly its own stamp a backup executes the request and answers OK; else it answers with an error and nothing changes |
| `Rsm.RsmNode.CommitChangeWo` | src/rsm/rsm.cc:337-347 | a newer view is recorded and its primary set; false where set_primary aborts |
| `Rsm.RsmNode.StartSync` | src/rsm/rsm.cc:166-211 | the view to sync is fixed and, at the primary, the backups to wait for are all other members, each as often as the view lists it |
| `Rsm.RsmNode.TransferReq` | src/rsm/rsm.cc:432-446 | answers only for the view being synced, with the state only if the stamps differ |
| `Rsm.RsmNode.StateTransfer` | src/rsm/rsm.cc:260-286 | takes the state over only if the stamps differ, and the stamp always |
| `Rsm.RsmNode.TransferDoneReq` | src/rsm/rsm.cc:453-475 | if the view is the committed one the backup is waited for once less, else nothing changes |
| `Rsm.RsmNode.FinishRecovery` | src/rsm/rsm.cc:177-183 | after a sync the stamp is (view, 1) and the view change is over |
| `RsmInvariant.SameStampSameRequest` | src/rsm/rsm.cc:380-427 | one request per viewstamp |
| `RsmInvariant.SameStampSameState` | src/rsm/rsm.cc:380-427 | one history before each viewstamp |
| `RsmInvariant.StampFixesState` | src/rsm/rsm.cc:279-282 | the last stamp determines the state |
| `RsmInvariant.NodeExtendsBase` | src/rsm/rsm.cc:26-39 | a replica's state extends what the leader of the view it goes back to started from, and has all the replica executed there |
| `RsmSteps.StepKeepsInv` | src/rsm/rsm.cc:151-550 | every event that meets Ready and Drained keeps the invariant, whichever primary a commit names |
| `RsmSteps.RunKeepsInv` | src/rsm/rsm.cc:151-550 | so does every such run |
| `RsmPrimary.CommitNamesPrimary` | src/rsm/rsm.cc:337-347 | committing any newer view changes only the view and its primary, and names the common primary if and only if the replica's primary is not in that view or is its head |
| `RsmTheorems.StampsAgree` | src/rsm/rsm.cc:380-427 | in every run that meets Ready and Drained: replicas that executed under one stamp executed the same request in the same state, although failed rounds reuse the stamp and members may name different primaries |
| `RsmTheorems.EqualStampsEqualStates` | src/rsm/rsm.cc:432-446 | in every such run replicas with equal last stamps hold equal states, so the transfer may skip the copy |
| `RsmTheorems.OneLeaderFinishes` | src/rsm/rsm.cc:190-221 | in every such run, when a leader may leave the view change nobody has finished that view, every member synced it with this leader, and no other member leads it |
| `RsmTheorems.SyncIsComplete` | src/rsm/rsm.cc:190-286 | in every such run, when a leader may leave the view change, every member still in that view holds its state and stamp |
| `RsmTheorems.StateKeepsExactlyWhen` | src/rsm/rsm.cc:26-39 | in every such run, for every replica and later view: its state holds every request acknowledged below that view if and only if none was acknowledged between its last stamp and that view, nor between each view and the stamp it was started from, on the way down |
| `RsmTheorems.BaseKeepsExactlyWhen` | src/rsm/rsm.cc:26-39 | the same for the state a leader starts a view from |
| `RsmPrimary.OnePrimary` | src/rsm/rsm.cc:528-550 | in every run whose commits meet Named, a node's primary is the common one of its view, a member of it and of the view before, and a commit of the next view meets Named |
| `RsmPrimary.CommitsName` | src/rsm/rsm.cc:337-347 | in every run at all, committing any newer view fails no VERIFY and names the common primary if and only if Named holds |
| `RsmPrimary.NamedMeansFromLeader` | src/rsm/rsm.cc:432-446 | in runs whose commits meet Named only a leader ever answers a transfer |
| `RsmSurvival.AckedSurvives` | src/rsm/rsm.cc:26-39 | in every run that meets Ready, Drained, FromLeader, Informed and Prepared, a request answered OK is in the state of every replica whose state goes back to a later view |
| `RsmSurvival.AckedInLaterViews` | src/rsm/rsm.cc:26-39 | under the same five, so it is in the state of every member of every later view that finished syncing |
| `RsmCounter.UnreadyNodesDisagree` | src/rsm/rsm.cc:374-379 | a run that meets all but Ready in which two nodes execute different requests under one stamp |
| `RsmCounter.UnpreparedLeaderLosesRequest` | src/rsm/rsm.cc:35-39 | a run that meets all but Prepared: a leader that never synced finishes a view without an acknowledged request |
| `RsmCounter.FollowerAnswerLosesRequest` | src/rsm/rsm.cc:432-446 | a run that meets all but FromLeader: two nodes follow each other, one takes over the other's empty state and then finishes a view without a request it had answered |
| `RsmCounter.UninformedNodeMissesRequest` | src/rsm/rsm.cc:26-39 | a run that meets all but Informed in which a later view is finished before the request is acknowledged |
| `RsmCounter.RoundBreaksSync` | src/rsm/rsm.cc:190-253 | a run that meets Ready but not Drained after which a leader may end its sync while a member that confirmed holds another state |
| `Extent.PutIsWrite` | src/extent_client/extent_client_cache.cc:12-29 | put replaces the content, and is refused exactly for an extent removed and not yet flushed |
| `Extent.GetIsRead` | src/extent_client/extent_client_cache.cc:31-57 | get returns the content and changes nothing a user can see |
| `Extent.GetAttrIsSize` | src/extent_client/extent_client_cache.cc:59-80 | getattr returns the size of the content, or NOENT exactly when there is none |
| `Extent.ReadingWritesNothing` | src/extent_client/extent_client_cache.cc:31-121 | an entry that was only read is not written back, whatever the server stores by then |
| `Extent.RemoveIsDelete` | src/extent_client/extent_client_cache.cc:82-91 | remove leaves no content |
| `Extent.FlushKeepsContent` | src/extent_client/extent_client_cache.cc:93-121 | flush moves the content to the server and empties the entry without a visible change |
| `Extent.CacheRefinesStore` | src/extent_client/extent_client_cache.cc:12-121 | for every sequence of operations the cache answers as a plain store with a pending-removal flag |
| `Extent.ExtentCache.constructor` | src/extent_client/extent_client_cache.cc:8-10 | the cache starts empty |
| `Extent.ExtentCache.PutExtent` | src/extent_client/extent_client_cache.cc:12-29 | the in-place put changes this entry only, as the function says |
| `Extent.ExtentCache.GetExtent` | src/extent_client/extent_client_cache.cc:31-57 | the same for get |
| `Extent.ExtentCache.GetAttrExtent` | src/extent_client/extent_client_cache.cc:59-80 | the same for getattr |
| `Extent.ExtentCache.RemoveExtent` | src/extent_client/extent_client_cache.cc:82-91 | the same for remove |
| `Extent.ExtentCache.FlushExtent` | src/extent_client/extent_client_cache.cc:93-121 | the same for flush |
| `LockClient.LockClientCache.constructor` | src/lock_client/lock_client_cache_rsm.cc:40-50 | no records, xid 0, empty queue |
| `LockClient.LockClientCache.Enter` | src/lock_client/lock_client_cache_rsm.cc:155-160 | afterwards the lock has a record; records that were there are untouched, and on a new one the first turn calls the server and a revoke is refused |
| `LockClient.LockClientCache.Turn` | src/lock_client/lock_client_cache_rsm.cc:161-227 | one turn of the acquire loop: call the server under a fresh xid, return with the lock, or wait, by the record's state |
| `LockClient.LockClientCache.Release` | src/lock_client/lock_client_cache_rsm.cc:259-286 | a revoked lock must be given back now, another stays cached; an unknown lock is an error |
| `LockClient.LockClientCache.RevokeHandler` | src/lock_client/lock_client_cache_rsm.cc:309-328 | a free lock becomes RELEASING and is queued for release; any other keeps its state and is marked, so that its next release gives it back; stale xids and unknown locks are refused without effect |
| `LockClient.RevokeIsRemembered` | src/lock_client/lock_client_cache_rsm.cc:259-328 | a revoke of a lock that is not free makes the next release give it back, also when it comes before the grant, and that release uses it up |
| `LockClient.LockClientCache.RetryHandler` | src/lock_client/lock_client_cache_rsm.cc:330-341 | sets the retry flag of a known lock |
| `LockProofs.FlushExtents` | include/lock_client/lock_client_cache.h:34-36 | a flush before release leaves the server with the latest content and the client with no entry |
| `LockProofs.StepKeepsInv` | src/lock_client/lock_client_cache_rsm.cc:52-341 | every event of clients, server and network keeps: one place per lock, its client the owner, only the owner caches, and cache plus server hold the latest content |
| `LockProofs.RunKeepsInv` | src/lock_client/lock_client_cache_rsm.cc:52-341 | so does every run, with failed calls, late requests, stale revokes and early retries |
| `LockTheorems.TokenIsUnique` | src/lock_client/lock_client_cache_rsm.cc:52-341 | a lock is in at most one place: free at the server, in a reply, held, cached, being flushed, queued, or in a release call |
| `LockTheorems.MutualExclusion` | src/lock_client/lock_client_cache_rsm.cc:153-286 | no two threads of any clients hold a lock at once |
| `LockTheorems.HolderReadsLatest` | src/extent_client/extent_client_cache.cc:31-80 | a holder's get and getattr answer with what the last put or remove by any client left |
| `LockTheorems.PutIsSeenByNextHolder` | src/lock_client/lock_client_cache.cc:29-153 | after a successful put, every later holder at any client gets that content until the next write |
| `LockTheorems.FlushedBeforeRelease` | src/lock_client/lock_client_cache.cc:107-119 | once a release is on its way or done, the server has the latest content and nobody caches it |
| `LockTheorems.RevokeIsHonoured` | src/lock_client/lock_client_cache_rsm.cc:259-328 | in every run: a lock revoked while it is not free is given back by the client's next release of it, which uses the revoke up |
| `LockTheorems.FreeRevokeGivesBack` | src/lock_client/lock_client_cache_rsm.cc:309-328 | one revoked while it is free goes to the releaser, or is given back by the handler |
| `LockTheorems.LostExactlyWhen` | src/lock_client/lock_client_cache_rsm.cc:52-341 | a step keeps a lock, at a named place, if and only if it is none of three losing steps |
| `LockLoss.LostStaysLost` | src/lock_client/lock_client_cache_rsm.cc:52-341 | a lock that is in no place is in none after any further steps |
| `LockLoss.ConservedExactlyWhen` | src/lock_client/lock_client_cache_rsm.cc:52-341 | a run ends with the lock in a place, and then in exactly one, if and only if no step of it was a losing one |
| `LockCounter.LockCanBeLost` | src/lock_client/lock_client_cache_rsm.cc:194-286 | a run without any failed call, in which a denied thread times out and asks again before the retry message lets a second thread ask, after which the server has an owner and the lock is nowhere |
| `RpcWindow.FrontIsLargest` | src/rpc/rpc.cc:380-400 | the front is the only k with 1 to k reported and k + 1 not |
| `RpcWindow.FrontGrows` | src/rpc/rpc.cc:380-400 | more reports never lower the front |
| `RpcWindow.WindowFront` | src/rpc/rpc.cc:380-400 | a window's first entry is that front and above it the window holds exactly the reported xids |
| `RpcWindow.Compress` | src/rpc/rpc.cc:395-399 | the pop loop advances the front as far as it goes and never removes the iterator's own element |
| `RpcWindow.Update` | src/rpc/rpc.cc:380-400 | inserting and compressing turns the window of a set into the window of the set with the xid added |
| `RpcWindow.UpdateAll` | src/rpc/rpc.cc:354-400 | after any sequence of reports, in any order and with repeats, the list is the window of their set |
| `RpcWindow.FrontCanRepeat` | src/rpc/rpc.cc:380-400 | the reports 2, 2, 1 from a new window leave a copy of the front behind it |
| `RpcServer.CheckIsOnce` | src/rpc/rpc.cc:636-649 | a call is new exactly when neither seen nor below its own mark; afterwards it is seen, and nothing is ever unseen |
| `RpcServer.CheckVerdicts` | src/rpc/rpc.cc:636-649 | a call is in progress exactly when it is listed without a reply, done with its own reply exactly when it is answered and above the mark, forgotten exactly when it is at or below the mark and not running |
| `RpcServer.CheckForgetsOnlyAnswered` | src/rpc/rpc.cc:641-643 | an entry is dropped exactly when it is answered and at or below the mark |
| `RpcServer.PruneList` | src/rpc/rpc.cc:641-643 | the loop drops exactly those entries from the list |
| `RpcServer.Find` | src/rpc/rpc.cc:668-675 | the loop finds the entry of an xid if there is one |
| `RpcServer.Insert` | src/rpc/rpc.cc:678-688 | the loop adds an unanswered entry and keeps the others |
| `RpcServer.ReplyWindow.constructor` | src/rpc/rpc.cc:545-547 | a new client's window is empty |
| `RpcServer.ReplyWindow.CheckDuplicate` | src/rpc/rpc.cc:636-649 | on the list in place, the verdict and the new window of the documented rule |
| `RpcServer.ReplyWindow.AddReplyTo` | src/rpc/rpc.cc:697-714 | the entry gets its reply, or is added with it; all others stay |
| `RpcClient.Rpcc.constructor` | src/rpc/rpc.cc:99-130 | xid 1, no calls, nothing reported, not bound |
| `RpcClient.Rpcc.Start` | src/rpc/rpc.cc:192-213 | a bind call before binding or another call after it gets a fresh xid and a header with the window front; at the wrong time it is bind_failure, while cancelling cancel_failure, and nothing changes |
| `RpcClient.Rpcc.Cancel` | src/rpc/rpc.cc:164-186 | the loop settles every call still out as cancelled, and from then on no call starts if there was one |
| `RpcClient.Rpcc.GotReply` | src/rpc/rpc.cc:354-376 | the xid is reported and the first reply settles a waiting call |
| `RpcClient.Rpcc.End` | src/rpc/rpc.cc:287-321 | the call is forgotten and its xid reported, answered or timed out; a bind that succeeded fixes the server to the nonce it returned |
| `RpcClient.BindLetsCallsOut` | src/rpc/rpc.cc:150-201 | after a bind that succeeded calls go out with the server's nonce and no further bind does; one that failed changes nothing |
| `RpcCode.WalkExactly` | src/rpc/rpc.cc:663-677 | the loop as written finds a call if and only if it is listed, and else reads past the end if and only if an odd number of entries at the end is due for erasing |
| `RpcCode.CodeExactly` | src/rpc/rpc.cc:650-690 | each verdict of the body as written, and when it has none, as a condition on the list and the request |
| `RpcCode.CodeRunKeeps` | src/rpc/rpc.cc:650-714 | in every run of the body the list is in strict order and holds only calls that ran |
| `RpcCode.RunsAgainExactlyWhen` | src/rpc/rpc.cc:660-690 | in every run of the body, a call that ran is run again if and only if it was erased, an older call is listed or none is, and the loop stays inside the list |
| `RpcCode.RefusesUnseenExactlyWhen` | src/rpc/rpc.cc:660-662 | in every run of the body, a call never seen is refused as forgotten if and only if every listed call is younger, or none is listed and the number read is larger |
| `RpcCode.WaitingCallIsKept` | src/rpc/rpc.cc:663-690 | in every run of the body, while no request reports more than f, a call above f that ran is still listed and no copy of it starts its handler |
| `RpcCode.RuleRefusesOnlyReported` | src/rpc/rpc.cc:641-649 | the documented rule refuses only calls at or below what the client reported |
| `RpcCode.CodeRefusesUnseenCall` | src/rpc/rpc.cc:660-662 | a run of one client, its bind first, in which the body refuses call 4 because calls 5 and 6 came before it; the documented rule runs it |
| `RpcCode.CodeRunsCallAgain` | src/rpc/rpc.cc:650-690 | a run of one client, its bind first, in which call 3 is run twice, where the documented rule has forgotten it |
| `RpcProofs.StepKeepsInv` | src/rpc/rpc.cc:188-714 | every event of clients, server restarts and network keeps the invariant |
| `RpcProofs.RunKeepsInv` | src/rpc/rpc.cc:188-714 | so does every run |
| `RpcTheorems.AtMostOnce` | src/rpc/rpc.cc:540-649 | under the documented rule, the handler of a call runs at most once over all server instances, that of a bind call at most once at each |
| `RpcTheorems.RepliesAgree` | src/rpc/rpc.cc:573-649 | under the documented rule all successful replies to a call are equal |
| `RpcTheorems.ResultIsFromTheOneRun` | src/rpc/rpc.cc:188-322 | under the documented rule a call that returned a result was run exactly once, at the instance it names, with that result |
| `RpcTheorems.NoCallIsToldForgotten` | src/rpc/rpc.cc:636-649 | under the documented rule no call ever returns atmostonce_failure; for the body see RpcCode.RefusesUnseenExactlyWhen |
| `RpcTheorems.WaitingCallIsRemembered` | src/rpc/rpc.cc:636-649 | under the documented rule, while a call waits its entry is above the low-water mark and kept, and no copy of it is run again or refused |
| `RpcTheorems.DuplicateGetsSavedReply` | src/rpc/rpc.cc:622-624 | a copy of a remembered, answered request is answered with the result of its run and runs nothing |
| `Wire.NumberOfBytes` | src/rpc/rpc.cc:784-791 | a number read from its big-endian bytes is that number |
| `Wire.NumberSplits` | src/rpc/rpc.cc:773-808 | earlier bytes are more significant, for any split of any bytes |
| `WireProofs.ReadBack` | src/rpc/rpc.cc:849-916 | at any position in any buffer, reading a typed value that comes next gives it back and moves exactly behind it |
| `WireProofs.ReadEntriesBack` | include/rpc/marshall.h:233-259 | reading map entries written in key order rebuilds the map, for keys of every type |
| `WireProofs.CountFirst` | include/rpc/marshall.h:213-243 | strings, vectors and maps start with their count in four bytes |
| `WireProofs.PartsInOrder` | src/rpc/rpc.cc:773-808 | unsigned numbers as they are, signed ones in two's complement, flags in one byte, pairs first part first |
| `WireProofs.ByteReads` | src/rpc/rpc.cc:840-856 | any byte but zero is true; past the end a zero is read, the flag goes down and the position stays |
| `WireProofs.ReadSticks` | src/rpc/rpc.cc:840-916 | once the flag is down it stays down, for every type |
| `WireProofs.CutIsNoticed` | src/rpc/rpc.cc:840-916 | a buffer that ends anywhere inside a value leaves the flag down |
| `WireProofs.MessageRoundTrip` | src/rpc/rpc.cc:832-916 | a message gives back its value with okdone, and every strict prefix of its content fails |
| `WireOrder.KeysAreOrdered` | include/rpc/marshall.h:233-243 | the order of map keys is strict and total on each type, vectors, pairs and maps included |
| `WireOrder.PutKeyUpdates` | include/rpc/marshall.h:255-255 | assigning a key keeps the map in order and changes exactly that entry |
| `WireOrder.ReadFits` | src/rpc/rpc.cc:840-916 | whatever the bytes, reading gives a value of the type asked for, with maps in order and counts in range |
| `Marshal.Marshall.constructor` | include/rpc/marshall.h:58-63 | 1024 bytes of room, empty content behind the header |
| `Marshal.Marshall.Grow` | src/rpc/rpc.cc:738-743 | a larger buffer with the same bytes |
| `Marshal.Marshall.RawByte` | src/rpc/rpc.cc:737-745 | appends a byte, doubling the room when it is full; without growth no other byte changes |
| `Marshal.Marshall.RawBytes` | src/rpc/rpc.cc:747-756 | appends the bytes; one growth always makes enough room |
| `Marshal.Marshall.Pack` | src/rpc/rpc.cc:810-815 | writes four bytes over the header and no other |
| `Marshal.Marshall.PackReqHeader` | include/rpc/marshall.h:85-98 | bytes 4 to 24 hold xid, procedure, client, server and report, four big-endian bytes each; size, capacity and content stay |
| `Marshal.Marshall.PackReplyHeader` | include/rpc/marshall.h:100-110 | bytes 4 to 12 hold xid and return code, four big-endian bytes each; size, capacity and content stay |
| `Marshal.Marshall.PutNumber` | src/rpc/rpc.cc:773-808 | appends the big-endian bytes |
| `Marshal.Marshall.PutString` | src/rpc/rpc.cc:798-802 | appends the length and the bytes |
| `Marshal.Marshall.Put` | include/rpc/marshall.h:213-243 | marshalling any typed value appends exactly its encoding |
| `Marshal.Marshall.PutCounted` | include/rpc/marshall.h:213-218 | appends the count and every element |
| `Marshal.Marshall.PutAll` | include/rpc/marshall.h:216-216 | the loop appends the encodings in order |
| `Marshal.Unmarshall.constructor` | include/rpc/marshall.h:139-139 | starts at 0 with the flag up |
| `Marshal.Unmarshall.TakeIn` | src/rpc/rpc.cc:824-830 | starts behind the header; the flag is down when the header is cut |
| `Marshal.Unmarshall.RawByte` | src/rpc/rpc.cc:840-847 | the next byte, or zero with the flag down |
| `Marshal.Unmarshall.RawBytes` | src/rpc/rpc.cc:907-916 | the next n bytes, or none with the flag down |
| `Marshal.Unmarshall.GetNumber` | src/rpc/rpc.cc:864-898 | the loop reads a big-endian number |
| `Marshal.Unmarshall.Get` | include/rpc/marshall.h:220-259 | reading in place computes the reader's function for every type |
| `Marshal.Unmarshall.GetMany` | include/rpc/marshall.h:220-231 | the loop reads n elements |
| `Marshal.Unmarshall.GetEntries` | include/rpc/marshall.h:245-259 | the loop reads n entries into a map kept by key |
| `Marshal.Unmarshall.UnpackReqHeader` | include/rpc/marshall.h:177-189 | reads the five fields and moves to the content |
| `Marshal.Unmarshall.UnpackReplyHeader` | include/rpc/marshall.h:191-200 | reads the two fields and moves to the content |
| `Marshal.ReqHeaderRoundTrip` | include/rpc/marshall.h:85-189 | the request header unpacked is the one packed, for signed and unsigned fields |
| `Marshal.ReplyHeaderRoundTrip` | include/rpc/marshall.h:100-200 | the reply header unpacked is the one packed |
| `Marshal.RequestOverWire` | src/rpc/rpc.cc:206-212 | arguments marshalled and a header packed by the caller are the header and arguments the server unpacks, to the last byte |
| `Marshal.ReplyOverWire` | src/rpc/rpc.cc:343-366 | the same for a reply through take_in |

## Left out

- Liveness: wake-ups, retry and heartbeat timing, call deadlines. Only safety is claimed.
- Sockets, polling, PDU framing, the thread pool, connection choice and retransmission timing; the network of each system stands for them.
- Torn log writes: a record is written whole.
- Machine-word wrap-around of xids, sequence numbers, proposal numbers and buffer sizes.
- The lock server, extent server and file system on top; the first two are abstract, as said under the assumptions.
- Extent timestamps: only content and size are modelled.
- Calls of flush to the extent server that fail: a flush takes effect whole.
- Breakpoints, partition simulation, statistics and the lossy-test resend buffer.
- `rsm_client`, `client_members` and the retry of a client at another primary.
- Join in `PaxosSystem`: timely only from a node that is ahead, because a take-over from one that is not can undo promises (`PaxosCounter.OneBackwardJoinBreaksAgreement`).
- RpcTheorems.AtMostOnce: about the documented rule; `RpcCode.RunsAgainExactlyWhen` says when the body as written breaks it.
- RpcTheorems.RepliesAgree: about the documented rule, as the one before.
- RpcTheorems.ResultIsFromTheOneRun: about the documented rule, as the one before.
- RpcTheorems.NoCallIsToldForgotten: about the documented rule; `RpcCode.RefusesUnseenExactlyWhen` says when the body as written breaks it.
- RpcTheorems.WaitingCallIsRemembered: about the documented rule; `RpcCode.WaitingCallIsKept` has the parts that hold of the body as written.
- RpcServer.PruneList: the documented loop; the one as written is `RpcCode.Walk`.
- RpcServer.ReplyWindow.CheckDuplicate: follows the documented rule and not the loop as written, which `RpcCode` models on values.
- Acceptor.AcceptorNode.ReadLogFile: stops also at a record with a missing or malformed number, where the code goes on with a failed stream and the fields half set.
- Marshal.Unmarshall.RawBytes: compares without 32-bit wrap-around; a failed read gives the empty string where the code leaves the caller's string as it was.
- Char, short and int are one signed type of a given width, and unsigned types one unsigned type; the bytes are the same.
