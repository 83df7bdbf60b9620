# pgpool-II: many nodes as one

pgpool-II sits between a client and several PostgreSQL nodes and makes them look like one server. This
project models what holds across those nodes and over whole sessions, and proves it.

**Statements over several nodes.** `Statements` classifies SQL the way the router looks at it. `Postgres` is a
node as an abstract machine: idle, in a block or failed; pending, durable and prepared effects, savepoints; and
the messages with which it answers. `SessionModel` gives one client's session as functions on its state: where
a statement goes, how it is wrapped in an internal transaction, in which order it is sent, how the answers of all
nodes are read in step. `ClientSession` is the session as it is programmed, a class whose methods change its
fields in loops over nodes; each method is proved to leave the state that the function describes. On the
functions rest the theorems about runs:

- `Lockstep`: with replication, nodes that answer alike stay alike. After every statement all live nodes are in
  the state of a single server that was given the client's statements, less those that they accept and whose commit,
  in a transaction of pgpool's own, they refuse.
- `SingleServer`: so they are in the state of a server that was given all of the client's statements exactly if no such
  commit is refused.
- `Mismatch`: a write for which two nodes report different row counts is never committed on any node.
- `QueryRouting`: in every mode, which statements go to the load balance node, to every node, to the primary or master alone.
- `WriteRouting`: in master/slave mode, after a write in a block every SELECT of the block goes to the primary.
- `FailedReads`: a SELECT that fails in a block fails the block on the primary, whichever node it was sent to.
- `Aftermath`: what each statement leaves in the session's marks and list of prepared statements; an EXECUTE goes where its
  PREPARE went.
- `CommitOrder`: an internal transaction is committed on the other nodes first and on the master last.
- `Delivery`: a statement reaches each of its targets exactly once, the master first, or last for COMMIT, and is waited for
  where it was sent, with one exception in raw mode.

`Batches`, `Framing`, `Reading`, `Settlement`, `Forgetting`, `StatementBoundary` and `Evolution` hold the invariants between
them: what a loop over nodes does, what is on the wire after sending, while reading, and at the readiness
message, what a session looks like between statements, and what no statement but one can change on a node.

**Votes.** `Voting` models the vote on row counts and the vote on message kinds, the loops proved against a
definition of who wins.

**Failover.** `Failover` is the cluster as a state machine over requests, failovers, health checks,
connections and reloads, with its safety invariant; `FailoverParent` is the parent process whose methods take
those steps.

**Caches.** `RelationCache` and `ConnectionPool` are the relation cache and a child's connection pool as arrays
updated in place; each refines a map.

**Session reset.** `SessionReset` is the loop that returns a connection to the pool with nothing of the last
client's session left on it.

**Codecs.** `Md5` refines RFC 1321, and `Md5Facts` pins that definition down by the RFC's own test vector and words.
`IpRange` is the prefix match of section 3.1 of RFC 4632 and the v4-mapped addresses of section 2.5.5.2 of RFC 4291;
`HbaToken` the quoting of pool_hba.conf; `CopyData` the splitting of COPY rows; `RowTags` the row counts in command tags.

`Options`, `Text` and `Numbers` are small helpers.

## How to read the model

- The nodes' verdicts on what is sent to them (accept with a row count, refuse, lose the connection) are
  parameters, so every theorem is about all nodes' behaviours. A verdict `Lost` also stands for a FATAL error.
- `Boundary` is a session between statements, `InFlight` one with answers still to read.
- `log` records sends and awaited answers per node. It is read by the theorems on order and delivery only; no decision of the
  session depends on it.
- A statement's `id` tells its effect apart in a node's `uncommitted`, `committed`, `prepared` and savepoints.
- Words are `bv32` and bytes `bv8` where the source's are; lengths that wrap do so explicitly.

Some things the code does that its comments or documentation do not say, or that a reader may not expect:

- `find_victim_nodes` speaks of a majority (pool_proto_modules.c:2838-2839), but nodes in several groups of the same
  largest size are counted together, so a plurality can carry the vote (`Voting.PluralityCarries`). What the largest groups
  carry is a majority exactly if they are one group (`Voting.MajorityCarriesIff`). Its branch for
  `maxvotes == 1` is never reached, since groups count from two on; all-different counts fall to the master's rule.
- `do_command` takes a non-fatal error for success (pool_process_query.c:1845-1852), so an internal COMMIT that one
  node refuses, or a failed transaction answers with a rollback, does not keep the master from committing.
  `CommitOrder.RefusedCommitDiverges` gives an input, `CommitOrder.AllDurableIff` says exactly when all that is pending on
  the participants becomes durable.
- A reload clears every slot whose port is 0, live or not (pool_config.c:3561-3575). A node brought up in such a slot
  is lost with it: `Failover.ReloadCanLoseMaster` gives the run, `Failover.ReloadKeepsMasterIff` the exact condition. The safety
  of runs therefore asks that only configured slots be brought up.
- A PREPARE that fails takes the context of the query in progress with it (pool_proto_modules.c:1797-1810,
  pool_session_context.c:414-461). From then on every live node counts as one of the query's, and pgpool waits for nodes that
  have nothing to say. `StatementBoundary.FailedPrepare` says exactly when the session goes on: all live nodes must have been
  asked, and no COMMIT of an internal transaction may be lost. `StatementBoundary.RefusedPrepare` is the same of a whole
  statement that its targets refuse, and `StatementBoundary.RefusedPrepareEndsSession` a master/slave session that it ends. In
  replication mode all live nodes are asked. A PREPARE of a name already listed takes the earlier one off the list.
- A COMMIT withheld from an idle node when a session is reset is waited for in raw mode all the same, because raw
  mode does not look at the targets (pool_query_context.c:563-567 and 612-639). `Delivery.RawResetStalls` gives the case,
  and `Delivery.AwaitsWhatItSendsIff` shows that it is the only one.
- In raw mode the next master is looked for among the nodes in CONNECT_WAIT only (main.c:1440-1446).
- The comment above `is_set_transaction_serializable` (pool_query_context.c:1060-1065) lists
  SET default_transaction_isolation; the code does not look at it in that form, and neither does the model.
- `is_2pc_transaction_query` casts any node to a transaction statement (pool_query_context.c:1118-1126). It is
  modelled as true of transaction statements only.
- `pool_get_cp` clears a broken slot only up to the size of a node's slot (pool_connection_pool.c:163); the
  full clear of line 211 is modelled in both places.
- A keyword of pool_hba.conf directly followed by a comma is an ordinary name (pool_hba.c:1219-1222 and 1246-1254), because the
  comma is part of the token when keywords are compared: `HbaToken.CommaEndsToken`.
- `parse_copy_data` leaves doubled backslashes doubled, and a printed field that ends in a backslash merges with the next
  one, if there is one (`CopyData.TrailingBackslashMerges`). `CopyData.SplitReadsColumns` says what any printed row is read as;
  a row comes back exactly if and only if no field has a backslash (`CopyData.RowComesBackIff`).
- `command_success` is never lowered between statements by the simple protocol, and the model keeps it so.

## Model

| member | source | states |
|---|---|---|
| Lockstep.RunsInLockstep | pool_proto_modules.c:2569-2603 | Replication, answers alike, NO LOAD BALANCE comments on plain reads only: over any run of statements no session is cut off, and after it every live node is in the state of a single server given the statements, less those accepted outside a block whose internal COMMIT all refuse; nothing is unread, no internal transaction is left, and the session knows the state |
| Lockstep.BeginsSynced | pool_session_context.c:40-118 | A new session on nodes in the same state is where such runs start |
| Lockstep.StatementInLockstep | pool_proto_modules.c:2065-2265 | One statement from such a state leads to such a state, and the state reported to the client is every node's; the statement has had the effect it has on a single server, or none at all if its internal COMMIT is refused |
| Lockstep.RouteAlike | pool_query_context.c:434-465 | In replication mode a statement goes to all live nodes, or it is a plain read (a SELECT with no side effect) that goes to one node, and to the master unless the session is idle; so also a plain read with a NO LOAD BALANCE comment |
| Lockstep.ServedAlone | pool_process_query.c:3875-3996 | Wrapping a statement in an internal BEGIN and COMMIT leaves a node where the statement alone would have iff it is not the case that something to keep is accepted and its COMMIT refused; in that case the node is as it was before |
| Lockstep.EffectOpens | pool_process_query.c:3875-3902 | A statement that leaves something behind gets an internal transaction in replication mode iff several nodes are live and its kind asks for one |
| Lockstep.ErrorSyncs | pool_proto_modules.c:2569-2603 | An error on nodes in step, be it of a SELECT that went to the master alone inside a block: afterwards every live node that is to report is in the same place, and a PREPARE that fails leaves all live nodes there |
| Lockstep.PlainReadLeaves | pool_query_context.c:434-465 | A read that goes to one node leaves that node as it was, or failed if it answered an error, so the others can be left out |
| Lockstep.DriveSyncs | pool_process_query.c:88-405 | Reading the answers in step ends with all live nodes in the same given state, whatever the statement answered |
| Lockstep.SentAlike | pool_proto_modules.c:101-455 | Sending to nodes in the same state leaves the targets alike and the others untouched |
| SingleServer.RunsAsOneServerIff | pool_process_query.c:3875-3996 | Over any such run whose statements' effects can be told apart, the live nodes end in the state of a single server given all of the client's statements iff no accepted statement had its internal COMMIT refused |
| SingleServer.StayApart | pool_process_query.c:3875-3996 | An effect that is lost once is missing for good: whatever statements follow, the nodes differ from the single server that has it |
| Mismatch.MismatchedWriteNeverCommitted | pool_proto_modules.c:1124-1242 | Replication, failover on mismatch off: a counted write for which two targets report different row counts is on no node's committed list after any further run of statements, whatever the client sends and however the nodes answer |
| Mismatch.MismatchHappens | pool_proto_modules.c:1645-1653 | Such a write exists: two nodes of a new session count one row and two |
| Mismatch.NotCommitted | pool_proto_modules.c:1096-1358 | Such a statement itself: no node has committed its effect when it ends, even if the session is cut off midway, and if it goes on every node that still holds the effect has a failed transaction |
| Mismatch.NoWayBack | pool_process_query.c:1737-1950 | An effect absent from a node, or pending in a failed transaction and in no savepoint, stays so under every query other than the statement itself: no COMMIT, ROLLBACK TO, PREPARE TRANSACTION or COMMIT PREPARED brings it back |
| Mismatch.SentPending | pool_proto_modules.c:344-448 | A counted write sent to two or more nodes is committed nowhere, and pending only in transactions that are open and can still be failed, also when sending breaks off |
| Mismatch.TornComplete | pool_proto_modules.c:1475-1726 | Different row counts in the nodes' completion messages always raise the mismatch flag |
| Mismatch.TornReady | pool_proto_modules.c:1124-1242 | At the readiness message a torn write ends committed nowhere; if the session goes on, every node that holds it has failed, before any COMMIT is sent |
| Mismatch.CheckedDoomed | pool_proto_modules.c:1124-1242 | Aborting the participating nodes leaves the effect on no node but in a failed transaction |
| Evolution.RunsKeep | pool_process_query.c:88-405 | Any property of nodes kept by every query but one client statement holds on all nodes after any run of statements not containing it: pgpool sends nothing else |
| Evolution.StatementKeeps | pool_proto_modules.c:101-455 | The same of one statement with all that pgpool sends around it, also when it is cut off |
| WriteRouting.ReadsFollowWrites | pool_query_context.c:351-433 | Master/slave: once a statement other than a SELECT or BEGIN has completed in an open block of the primary, then after any run of statements without a BEGIN every SELECT goes to exactly the primary, as long as the primary's block is open |
| WriteRouting.WritePins | pool_proto_modules.c:1289-1340 | A completed statement other than a SELECT or BEGIN marks the session (writing, failed or serializable) or ends the primary's block, also when opening an internal transaction has just cleared the mark and for two-phase commands |
| WriteRouting.PinStays | pool_process_query.c:3875-3900 | No statement but BEGIN loses the mark, although opening an internal transaction clears the writing flag and a failed PREPARE leaves it cleared |
| WriteRouting.PinLasts | pool_proto_modules.c:1289-1340 | The mark lasts over any run of statements without a BEGIN |
| WriteRouting.PinnedSelect | pool_query_context.c:351-433 | A marked session whose primary is not idle routes every SELECT to exactly the primary |
| WriteRouting.SelectHasOneTarget | pool_query_context.c:351-433 | In master/slave mode a SELECT goes to exactly one node, a live one |
| WriteRouting.DriveHistory | pool_proto_modules.c:1289-1340 | From sending to readiness, a statement that is not BEGIN changes the writing and isolation marks exactly as its kind says, once it has completed, and never clears the failed mark; only a PREPARE that fails may leave no mark but the failed one |
| WriteRouting.OtherHistory | pool_proto_modules.c:2065-2265 | No message before readiness touches the marks, except that an error inside a block sets the failed mark |
| WriteRouting.DriveTwoPhase | pool_proto_modules.c:1319-1334 | A two-phase command in an open block either leaves the primary idle or sets the failed mark |
| Aftermath.StatementLeaves | pool_proto_modules.c:1289-1340 | After a statement that the session survives, the marks (writing, failed, isolation) and the set of listed prepared statements are exactly those that its kind and its answer, completion or error, call for, whether an internal transaction cleared the writing mark included |
| Aftermath.DriveLeaves | pool_process_query.c:88-405 | The same from sending to readiness, message by message, also when a failed PREPARE takes the query's context with it |
| Aftermath.ExecuteFollowsPrepare | pool_query_context.c:474-495 | Across two statements: once a PREPARE of a new name has completed, EXECUTE and DEALLOCATE of the name go to exactly the nodes that were given the PREPARE |
| Aftermath.AnswerIs | pool_proto_modules.c:2065-2265 | An ordinary statement counts as completed exactly if the virtual master accepts it outside a failed block, and as failed otherwise |
| Aftermath.PreparesComplete | pool_proto_modules.c:348-362 | With replication every PREPARE that the nodes accept alike completes and the session goes on |
| Aftermath.DeallocatedIsGone | pool_proto_modules.c:1505-1534 | A completed DEALLOCATE takes its name off the list and no other; without a name it empties the list |
| Aftermath.BeginClearsMarks | pool_proto_modules.c:1300-1312 | A completed BEGIN or START TRANSACTION leaves the session without marks |
| Aftermath.RunsKeepNames | pool_session_context.c:520-567 | Over any run no name is listed twice |
| Aftermath.AddedAre | pool_session_context.c:520-567 | Adding lists the statement unless its name is taken; the unnamed one replaces the one before |
| Aftermath.RemovedAre | pool_session_context.c:347-383 | Removing a name leaves exactly the others |
| Aftermath.OpeningClears | pool_process_query.c:3875-3902 | The writing mark is cleared iff an internal transaction is opened: two targets, a kind that is wrapped, and a target outside a block |
| FailedReads.FailedReadFailsBlock | pool_proto_modules.c:2547-2567 | Master/slave: a SELECT that fails inside a block, on whichever node, leaves the primary's block failed and the client told so; one that does not fail leaves the block open |
| FailedReads.DriveReads | pool_process_query.c:88-405 | The same from sending to readiness |
| QueryRouting.MasterSlaveTargets | pool_query_context.c:325-433 | Master/slave, by outcome: a statement goes to the load balance node iff it only reads (SELECT without INTO, locks and sequences, or COPY to the client; no writing function, system catalog or temporary table), balancing is on, the node does not lag, and the primary is outside a block or in one that has not written or failed and is not serializable; to every live node iff it is a SET that keeps transactions read-only, a DISCARD, a weak LOCK, or a PREPARE of one of these; to the primary alone otherwise |
| QueryRouting.ReplicationTargets | pool_query_context.c:434-465 | Replication, by outcome: what only reads goes to the load balance node if the master is idle and balancing is on, else to the master; everything else, and all with replicate_select, to every live node |
| QueryRouting.OneNodeTargets | pool_query_context.c:297-323 | A NO LOAD BALANCE comment sends any statement to the primary in master/slave mode and to the master in the others; raw mode sends everything to the master |
| QueryRouting.PreparedTargets | pool_query_context.c:474-495 | EXECUTE and DEALLOCATE of a listed name go to the nodes of the first statement listed under it, in every mode |
| QueryRouting.UnlistedTargets | pool_query_context.c:993-1015 | Of a name that is not listed they go to the primary, or in replication mode to every live node; DEALLOCATE ALL goes to every live node |
| QueryRouting.RoutingKeeps | pool_query_context.c:357-364 | Routing asks for the isolation level exactly for a balanceable read in an open block without marks whose level is not known, and changes nothing else but the query in progress |
| Statements.ReadWriteIff | pool_query_context.c:869-925 | Which SET commands make transactions read-write, words compared letter by letter up to case |
| Statements.SerializableIff | pool_query_context.c:1067-1112 | Which SET commands make a transaction serializable |
| Statements.WrappedIff | pool_process_query.c:3736-3860 | The statements wrapped in an internal transaction are all but those that cannot or need not stand in a block |
| Text.LowerIff | pool_relcache.c:152-153 | Folding case makes texts equal iff they agree letter by letter up to case |
| CommitOrder.CommitsMasterLast | pool_process_query.c:3907-3996 | end_internal_transaction succeeds iff no participating node's connection is lost, and then has sent COMMIT to and waited for each other participating node in ascending order, then the master, once each, and touched no other node |
| CommitOrder.MasterStaysUncommitted | pool_process_query.c:3924-3960 | If the COMMIT of any other participating node is lost, the session ends, the master has been sent nothing and is unchanged |
| CommitOrder.StartKeepsFlagMeansOpen | pool_process_query.c:3875-3902 | start_internal_transaction keeps: a node with the internal flag is not idle |
| CommitOrder.NoFlagSurvives | pool_process_query.c:3907-3996 | After a successful end no node of the query carries the internal flag, given that flag means open |
| CommitOrder.OthersUntouched | pool_process_query.c:3907-3996 | Whatever comes of it, ending internal transactions leaves alone every node that is idle, does not carry the flag, or neither takes part in the query nor is the master |
| CommitOrder.AllDurableIff | pool_process_query.c:3907-3996 | After a successful end everything pending on the participants has become durable iff each of them with something pending was in a block, not failed, and did not refuse its COMMIT |
| CommitOrder.RefusedCommitDiverges | pool_process_query.c:1845-1852 | An input on which end_internal_transaction succeeds and one of two replicated nodes has committed a write that the other has not |
| Delivery.DispatchDelivers | pool_proto_modules.c:368-448 | In every mode, unless a node of raw mode has the statement withheld: the calls of pool_send_and_wait give it to exactly the live targets it is not withheld from, drop the withheld ones from the targets, and go on iff no connection is lost |
| Delivery.ExactlyOnce | pool_query_context.c:537-649 | Each such node is sent the statement once and waited for once, every other node neither |
| Delivery.MasterInItsPlace | pool_proto_modules.c:368-448 | For COMMIT and ROLLBACK everything that concerns another node comes before anything that concerns the master; otherwise, with more than one child, after the master has answered |
| Delivery.DispatchTouches | pool_query_context.c:537-649 | Also when sending breaks off, a node has been given the statement at most once and only if it was to get it |
| Delivery.TwoCalls | pool_query_context.c:522-651 | The master's call and the others' do not disturb each other: in either order both act as if made on the state before |
| Delivery.GetsIff | pool_query_context.c:548-582 | A live target gets the statement unless it is a COMMIT or ROLLBACK, the node is idle, and the session is being reset or, in master/slave mode, the node is not the master |
| Delivery.AwaitsWhatItSendsIff | pool_query_context.c:537-649 | In every mode a call waits for exactly the nodes it sent to, in that order, iff no connection but the last breaks and it is not the case that raw mode withholds a COMMIT from its node |
| Delivery.RawResetStalls | pool_query_context.c:563-639 | That case: raw mode, a session being reset, an idle node, COMMIT or ROLLBACK; nothing is sent, the node is waited for, and the session ends |
| Delivery.RawOpensNothing | pool_proto_modules.c:304-335 | Raw mode never opens an internal transaction |
| Framing.TargetsAreProper | pool_query_context.c:279-507 | Outside raw mode routing yields a non-empty set of live targets, and the virtual master is the lowest of them, also for EXECUTE and DEALLOCATE of an earlier PREPARE |
| Framing.RouteRaiseReady | pool_query_context.c:434-465 | In replication mode a SELECT for several nodes, or inside a block, has the master among its targets |
| Framing.OpeningForm | pool_process_query.c:3875-3902 | Opening internal transactions puts exactly the idle targets into a block, flagged, and leaves every other node alone |
| Framing.SendOutForm | pool_proto_modules.c:101-455 | What each node's connection holds after a statement has been sent out, and who is still a target |
| Framing.SendOutFlies | pool_proto_modules.c:101-455 | From between statements, a statement sent out has one full answer queued at each target and nothing queued elsewhere |
| Framing.SendOutSucceeds | pool_proto_modules.c:101-455 | Sending out succeeds if no target's connection is lost |
| Reading.MessageKept | pool_proto_modules.c:2065-2265 | A row or notice read from all targets keeps the answers in step |
| Reading.CompleteKept | pool_proto_modules.c:1475-1726 | So does a completion message |
| Reading.CompletedMismatch | pool_proto_modules.c:1589-1656 | After a completion message the mismatch flag is up iff it was, or some target's row count differs from the master's |
| Reading.CompletedCounts | pool_proto_modules.c:1475-1726 | The row count taken down for each node is the one in its own completion message, -1 for nodes that are not targets |
| Reading.RaiseForm | pool_proto_modules.c:2530-2606 | raise_intentional_error_if_need fails exactly the nodes it should: the primary if it did not see the SELECT, or the other replicas if the master is in a block, and it always succeeds |
| Reading.ProvokedIff | pool_proto_modules.c:2547-2601 | Node by node: an error is provoked on the primary if its block is open and the failed SELECT went elsewhere, or with replication on every live node but the master if the master's block is open and SELECTs are not replicated; no other node is touched |
| Reading.RaiseKept | pool_proto_modules.c:2530-2606 | The nodes provoked join the targets with the same single message left to read |
| Reading.ErrorKept | pool_proto_modules.c:1728-1812 | After an error, with or without provoked errors, every target has just its readiness message left, before a failed PREPARE is dealt with |
| Settlement.AbortForm | pool_proto_modules.c:1185-1231 | The mismatch path goes on iff failover on mismatch is off, the targets report the same transaction state and none lies below the virtual master; it has then failed the transaction on every target and on no other node, and read the kind of each readiness message |
| Settlement.SkipForm | pool_proto_modules.c:1204-1230 | With just the readiness message left, skipping packets finds it on every target iff none lies below the virtual master |
| Settlement.EndForm | pool_process_query.c:3907-3996 | Ending internal transactions acts on exactly the flagged targets and keeps the answers in step |
| Settlement.SettledForm | pool_proto_modules.c:1096-1260 | What each target is left with at readiness: aborted if the counts differed, its internal transaction ended, its state known, its queue empty |
| Settlement.ReachesUnlessLost | pool_proto_modules.c:1096-1260 | Without a mismatch, readiness is reached unless the connection of a flagged target is lost |
| Settlement.ReachesIff | pool_proto_modules.c:1124-1274 | With a mismatch or without, readiness is reached iff the mismatch path, if taken, goes on, and no flagged target loses its COMMIT |
| StatementBoundary.CloseForm | pool_proto_modules.c:1289-1346 | Closing a query remembers its outcome if it completed, commits what standbys have open only after a two-phase command, and drops the query context but for PREPARE |
| StatementBoundary.NotedForm | pool_proto_modules.c:1289-1338 | Which nodes' transactions a remembered outcome closes |
| StatementBoundary.ResponseKept | pool_proto_modules.c:2065-2265 | Every message handled leaves the session reading with less to read, or ready for the next statement, also when a failed PREPARE has taken the context away |
| StatementBoundary.FailedPrepare | pool_proto_modules.c:1797-1810 | After the error of a PREPARE of a new name the query has no context, and the session goes on iff every live node had been asked and no flagged target loses its COMMIT |
| StatementBoundary.RefusedPrepare | pool_proto_modules.c:1797-1810 | A whole PREPARE of a new name that its targets refuse, no connection lost: the session survives it iff every live node is a target |
| StatementBoundary.RefusedPrepareEndsSession | pool_proto_modules.c:1797-1810 | A two-node master/slave session that a refused PREPARE ends, though no node has lost its connection |
| StatementBoundary.ReadyContinuesIff | pool_proto_modules.c:1096-1358 | But for two-phase commands, the session survives its readiness message iff readiness is reached |
| StatementBoundary.ForgottenSurvivesIff | pool_proto_modules.c:1096-1358 | A query without a context is survived iff the nodes agree on what to read and no flagged node loses its COMMIT |
| StatementBoundary.BeginsAtBoundary | pool_session_context.c:40-118 | A new session is between statements |
| Forgetting.ForgottenResponse | pool_query_context.c:238-254 | A query without a context ends as a plain read sent to all live nodes would, or not at all |
| Forgetting.SurvivesOnlyIfAsked | pool_query_context.c:238-254 | The nodes have something to read for such a query iff every live node is at its readiness message |
| Forgetting.FailureNoted | pool_proto_modules.c:1797-1810 | What an error changes: nothing but the marks and, for a PREPARE, the list and the context; the targets stay at their readiness message |
| StatementBoundary.DriveKept | pool_process_query.c:88-405 | So the driving loop ends, between statements |
| StatementBoundary.StatementKeepsBoundary | pool_process_query.c:88-405 | A statement that does not end the session leaves it between statements: nothing unread on a live node, every node's state known, no internal transaction, no mismatch |
| StatementBoundary.RunsKeepBoundary | pool_process_query.c:88-405 | The same of any run of statements |
| Batches.RunOnSucceeds | pool_process_query.c:3924-3960 | A loop over nodes that stops at the first failure succeeds iff every step would, and then has taken each node in ascending order once |
| Batches.RunOnTouches | pool_process_query.c:3924-3960 | Also when it stops midway it has touched selected nodes only, each at most once |
| Batches.CloseInternalActs | pool_process_query.c:3931-3958 | Ending one node's internal transaction consumes the pending readiness message, leaves the new one half read, and clears the flag whatever the node answers |
| Batches.ProvokeActs | pool_process_query.c:1955-2048 | do_error_command reads past a readiness message still in the queue, fails an open transaction and leaves an idle node idle |
| Postgres.RespondShape | pool_process_query.c:1795-1853 | Every answer is rows and notices, one message that ends the command, and a readiness message with the node's state: what do_command reads |
| Postgres.AutocommitIsTransaction | pool_process_query.c:3875-3996 | On a node, a statement standing alone and one inside a transaction that then commits come to the same |
| ClientSession.Session.constructor | pool_session_context.c:40-118 | A new session has no query, no marks and nothing remembered |
| ClientSession.Session.Command | pool_process_query.c:1737-1945 | do_command on one node: the loop over packets ends at readiness and takes over the state reported, or leaves that to the caller; errors that are not fatal pass |
| ClientSession.Session.ErrorCommand | pool_process_query.c:1955-2048 | do_error_command on one node: everything up to and including the error is read |
| ClientSession.Session.CommitCommand | pool_process_query.c:3931-3958 | One node's part of ending an internal transaction |
| ClientSession.Session.StartInternalTransaction | pool_process_query.c:3875-3902 | The loop opens transactions on exactly the valid idle nodes not yet flagged, in order, stopping at the first failure, and clears the writing mark once one was opened |
| ClientSession.Session.EndInternalTransaction | pool_process_query.c:3907-3996 | The two loops: other participants in order, then the master unless one of them failed |
| ClientSession.Session.CommitSecondaries | pool_process_query.c:3924-3960 | The first of them |
| ClientSession.Session.ProvokeErrors | pool_proto_modules.c:2578-2600 | The loop provokes an error on every valid node but one |
| ClientSession.Session.CloseStandbyTransactions | pool_proto_modules.c:1363-1385 | The loop commits on every node in status UP that is in a block, but the main one |
| ClientSession.Session.SetAllNodes | pool_query_context.c:165-182 | The loop adds every live node to the targets and removes none |
| ClientSession.Session.HasSeveralTargets | pool_query_context.c:187-212 | True iff more than one live node is a target |
| ClientSession.Session.RouteToStandbys | pool_query_context.c:351-433 | The branches of master/slave routing, asking for the isolation level only when nothing else keeps a SELECT on the primary |
| ClientSession.Session.RouteToReplicas | pool_query_context.c:434-465 | The branches of replication routing |
| ClientSession.Session.WhereToSendQuery | pool_query_context.c:279-507 | The targets with prepared statements followed, and the virtual master |
| ClientSession.Session.FollowPreparedStatement | pool_query_context.c:474-495 | EXECUTE and DEALLOCATE go where their PREPARE went, if it is known |
| ClientSession.Session.FindSent | pool_session_context.c:573-597 | The loop finds the first prepared statement of a name |
| ClientSession.Session.RemoveSent | pool_session_context.c:347-383 | The loop takes the first prepared statement of a name off the list |
| ClientSession.Session.AddSent | pool_session_context.c:520-568 | A statement is listed unless its name is taken; the empty name is replaced |
| ClientSession.Session.LowestTarget | pool_query_context.c:497-504 | The loop finds the lowest target, or none |
| ClientSession.Session.SendLoop | pool_query_context.c:537-607 | The sending loop: what each connection, the targets and the order of sending are after it |
| ClientSession.Session.WaitForNodes | pool_query_context.c:609-649 | The waiting loop awaits the nodes that are targets after sending, in order, up to the first that is lost or has nothing to say, in raw mode too |
| ClientSession.Session.SendAndAwait | pool_query_context.c:522-651 | The two loops together, in every mode and also when the session is being reset |
| ClientSession.Session.SendInOrder | pool_proto_modules.c:368-448 | Master first, others first or all at once, the second call only if the first went well |
| ClientSession.Session.SendQueryOut | pool_proto_modules.c:344-448 | An internal transaction opened where needed, a PREPARE noted, then the sending |
| ClientSession.Session.Query | pool_proto_modules.c:101-455 | SimpleQuery: a session in the state that the function gives, for every statement and state |
| ClientSession.Session.ReadKindList | pool_process_query.c:3376-3449 | The loop reads one kind byte from each node of the query, passing over the others |
| ClientSession.Session.ReadKindFromNodes | pool_process_query.c:3352-3590 | Succeeds iff all nodes of the query, the master among them, show the same kind; the kind is decided by the vote |
| ClientSession.Session.ReadKindBytes | pool_proto_modules.c:1204-1212 | The loop reads the kind byte from each node of the query |
| ClientSession.Session.NoteCompletion | pool_proto_modules.c:1493-1565 | What a completed PREPARE, DEALLOCATE, DISCARD or BEGIN does to the session |
| ClientSession.Session.CountTuples | pool_proto_modules.c:1589-1656 | The loop takes down every target's row count, -1 for the others, and finds whether they differ |
| ClientSession.Session.ReadCompletion | pool_proto_modules.c:1475-1726 | CommandComplete |
| ClientSession.Session.RaiseIntentionalError | pool_proto_modules.c:2530-2606 | raise_intentional_error_if_need, with the nodes added to the targets |
| ClientSession.Session.ReadAlike | pool_proto_modules.c:1185-1193 | The loop finds whether all nodes of the query have the same readiness message |
| ClientSession.Session.SkipPackets | pool_proto_modules.c:1204-1229 | The loop discards packets until all nodes of the query show readiness, and ends the session when they disagree |
| ClientSession.Session.DiscardPacket | pool_process_query.c:4301-4330 | One packet less on every node of the query |
| ClientSession.Session.AbortTransactions | pool_proto_modules.c:1124-1242 | The mismatch path of ReadyForQuery |
| ClientSession.Session.ProvokeOnEach | pool_proto_modules.c:1195-1202 | The loop provokes an error on every node of the query, whatever comes of it |
| ClientSession.Session.TakeNodeStates | pool_proto_modules.c:1244-1274 | The loop takes over every target's reported state; the client is told the main node's |
| ClientSession.Session.RememberOutcome | pool_proto_modules.c:1289-1338 | The marks a completed statement leaves |
| ClientSession.Session.FinishQuery | pool_proto_modules.c:1289-1346 | The query context goes, but for PREPARE |
| ClientSession.Session.HandleReady | pool_proto_modules.c:1096-1358 | ReadyForQuery |
| ClientSession.Session.HandleError | pool_proto_modules.c:2141-2152 | ErrorResponse, then the errors provoked elsewhere, a failed PREPARE forgotten, and the failed mark |
| ClientSession.Session.ForgetFailedPrepare | pool_proto_modules.c:1797-1810 | A failed PREPARE is listed and taken off again, with the earlier one of its name or with the context of the query in progress |
| ClientSession.Session.HandleResponse | pool_proto_modules.c:2065-2265 | One message read from all nodes and handled by its kind; when the session ends, the fields and the nodes are as the function says up to what of the messages at hand has been read |
| ClientSession.Session.ProcessQuery | pool_process_query.c:88-405 | The driving loop runs until the query is over, or the session ends as above |
| ClientSession.Session.Run | pool_process_query.c:88-405 | A statement from arrival to readiness does what the function of the run theorems says; when the session ends, the nodes hold what that function says they hold |
| Voting.FindVictimNodes | pool_proto_modules.c:2854-2950 | The victims are exactly the healthy nodes whose count is not the winner's: that of the lowest node in a largest group if the nodes in largest groups of two or more outnumber half the healthy ones, else the master's; no list iff neither applies |
| Voting.CollectVotes | pool_proto_modules.c:2870-2922 | The loops find the size and count of the lowest-index largest group and how many nodes share its size |
| Voting.SurvivorsAgree | pool_proto_modules.c:2854-2950 | Nodes that survive a vote report one and the same count |
| Voting.SomebodySurvives | pool_proto_modules.c:2854-2950 | With a healthy master some healthy node survives |
| Voting.SomebodySurvivesIff | pool_proto_modules.c:2854-2950 | Whenever there is a winner, some healthy node survives iff the largest groups carry the vote or the master is healthy |
| Voting.StrictMajorityWins | pool_proto_modules.c:2854-2950 | A count reported by more than half of two or more healthy nodes wins, and nothing else does |
| Voting.PluralityCarries | pool_proto_modules.c:2913-2938 | An input: two nodes of five report 2 and win, because two groups of two carry the vote together |
| Voting.MajorityCarriesIff | pool_proto_modules.c:2900-2938 | When the largest groups carry the vote, the winning count is reported by more than half of the healthy nodes iff there is only one largest group |
| Voting.LosersAre | pool_proto_modules.c:2940-2949 | The victim list: who is on it, in ascending order |
| Voting.ReadKindFromBackend | pool_process_query.c:3376-3485 | The kind decided is the common one if all agree, else the one held by more than half of all nodes, else the master's; the nodes to degenerate are exactly those asked that hold another |
| Voting.TallyKinds | pool_process_query.c:3376-3449 | The tallying loop finds a kind with the highest tally among the nodes asked |
| Voting.AllCondemnedIff | pool_process_query.c:3376-3485 | Every node asked is condemned iff they are not unanimous, no kind has a majority and the master was not asked |
| Voting.LowestTargetSurvivesVote | pool_process_query.c:3376-3485 | With the master among the nodes asked, as routing guarantees, never all are condemned |
| Voting.DissentersAre | pool_process_query.c:3468-3481 | The list of nodes to degenerate: who is on it, in ascending order |
| Failover.RunsAreSafe | main.c:1467-1821 | Over every run of requests, failovers, health-check failures, connections and reloads, between steps: the master is the lowest live node if there is one, the primary is live or -1, no failover is under way and the request lock is free |
| Failover.StepIsSafe | main.c:1467-1821 | Each step keeps that |
| Failover.FailoverIsSafe | main.c:1467-1821 | A failover keeps that, whatever primary is found |
| Failover.FollowLeavesOnlyPrimary | main.c:1705-1753 | After a promotion or a followed degeneration the live set is exactly the new primary, which is also the master |
| Failover.DownTakesOnlyCondemned | main.c:1569-1598 | Otherwise a node-down request takes exactly the requested live nodes, and changes no other status |
| Failover.UpRevivesOne | main.c:1530-1548 | A failback of a node that is not live marks it as waiting to be connected, changes no other status, and takes the primary that the search finds |
| Failover.PromoteLeavesOne | main.c:1551-1566 | With streaming replication a promoted live node is the only live one, primary and master; otherwise nothing changes |
| Failover.DownTakesNamed | main.c:1569-1598 | A node-down request takes down the live nodes it names, with a follow command that finds a new primary all others too; the primary is what the search finds; without a live node named nothing changes |
| Failover.ReportedGoDown | main.c:1291-1318 | From the report of broken nodes to the failover: exactly the live ones that may fail over are down afterwards, unless a follow command takes more |
| Failover.FoundPrimaryStays | main.c:1705-1708 | A failover that finds the old primary keeps it |
| Failover.FailedCheckTakesNode | main.c:640-671 | A node that fails its health check is not live and not the primary afterwards |
| Failover.RefusedIff | main.c:1530-1598 | Which requests change nothing |
| Failover.ReloadKeepsLive | pool_config.c:3561-3575 | With live nodes configured, a reload makes no node live and none dead |
| Failover.ReloadKeepsMasterIff | pool_config.c:3561-3575 | A reload keeps the master the lowest live node iff the master's slot has a port, or nothing with a port is live; the primary iff its slot has one |
| Failover.ReloadCanLoseMaster | pool_config.c:3561-3575 | A run in which bringing up a slot without a port and reloading loses the master |
| FailoverParent.Parent.constructor | main.c:508-522 | Start-up establishes the invariant |
| FailoverParent.Parent.GetNextMasterNode | main.c:1423-1450 | The loop finds the lowest live node, in raw mode the lowest one in CONNECT_WAIT, or -1 iff there is none |
| FailoverParent.Parent.CondemnRequested | main.c:1569-1598 | The loop takes down exactly the live nodes requested, and counts none iff there were none |
| FailoverParent.Parent.DegenerateFollowers | main.c:1727-1739 | The loop takes down every slot but the new primary's |
| FailoverParent.Parent.AcceptRequest | main.c:1526-1598 | Which requests are turned away, leaving all statuses, and what an accepted one does to them |
| FailoverParent.Parent.FollowNewPrimary | main.c:1715-1753 | When followers are taken down |
| FailoverParent.Parent.Publish | main.c:1755-1815 | Master, primary, request slots, lock and re-entrancy flag as the failover leaves them |
| FailoverParent.Parent.Failover | main.c:1467-1821 | Takes exactly one failover step of the state machine, or none at all when exiting or re-entered; unless there is nothing to do, the primary is afterwards the promoted node, or what the search has found |
| FailoverParent.Parent.DegenerateBackendSet | main.c:1280-1318 | Requests exactly the given nodes that are live and may fail over, and signals the parent iff there is one |
| FailoverParent.Parent.PromoteBackend | main.c:1320-1342 | Requests a promotion iff streaming replication is on and the node is live |
| FailoverParent.Parent.HealthCheckFailed | main.c:622-641 | A failed check of a node that may fail over is one step of the state machine, of any other none |
| FailoverParent.Parent.ReadPorts | pool_config.c:3204-3228 | A newly configured port is taken only into an unused slot, whose node is then down |
| FailoverParent.Parent.RecountSlots | pool_config.c:3561-3575 | Slots without a port are cleared, and the number of backends is one past the last with one |
| FailoverParent.Parent.ReloadConfig | main.c:2233-2245 | Takes one reload step of the state machine |
| FailoverParent.FailoverCompletes | main.c:1467-1821 | The statuses that the parts of a failover leave, with the master they find, make up the state machine's step |
| RelationCache.RelCache.Search | pool_relcache.c:93-232 | The answer is that of a slot with the database and relation names, equal up to case once quotes are dropped, of the session if so configured, and not past its expiry; the backend is asked exactly when there is no such slot; its answer is then in such a slot for its life time, and found first; a failed query registers nothing; what is answered is what was registered last |
| RelationCache.RelCache.Lookup | pool_relcache.c:132-163 | The searching loop finds the one fresh slot of the key, or frees its first, newest, stale slot |
| RelationCache.RelCache.FindReplacement | pool_relcache.c:182-207 | The loop picks the first free slot, else the first of those used least |
| RelationCache.RelCache.Register | pool_relcache.c:209-231 | Refilling keeps the cache consistent and puts the new datum first, handing back what the slot held |
| RelationCache.RelCache.constructor | pool_relcache.c:36-73 | A new cache is consistent and empty |
| RelationCache.AnswersAreLatest | pool_relcache.c:132-163 | In a consistent cache a fresh slot is the first and newest of its key, the only fresh one, and holds the latest datum registered |
| RelationCache.TimeAndUse | pool_relcache.c:132-163 | Passing time and changing use counts keep the cache consistent |
| RelationCache.Refill | pool_relcache.c:209-231 | Overwriting a slot that lies before all others of the key, which have expired, keeps the cache consistent |
| RelationCache.UnquotedName | pool_relcache.c:120-125 | A name in double quotes stands for the name itself |
| RelationCache.UnquoteSplits | pool_relcache.c:120-125 | Quotes are dropped wherever they stand and nothing else is: the rest is kept in order |
| RelationCache.KeysIff | pool_relcache.c:132-153 | Two searches ask for the same relation iff both names agree up to case and, in a cache for each session, the sessions do |
| ConnectionPool.Child.ServeClient | child.c:292-338 | A client gets a connection opened with its startup packet: one reused iff a slot has a byte-identical packet and sound sockets, else a new one iff every valid node, and there is one, takes it and the client authenticates; the child ends iff a valid node cannot be connected to; connections of another user, database or protocol stay where they are, but for one evicted when no slot is empty and the key has none, which was closed no later than any other |
| ConnectionPool.Child.FindIdentical | child.c:293-321 | A pooled connection is taken iff its startup packet is identical; one that differs is discarded |
| ConnectionPool.Child.GetCp | pool_connection_pool.c:84-179 | The loop finds the slot of the key and marks it in use; a broken one is dropped |
| ConnectionPool.Child.DiscardCp | pool_connection_pool.c:184-214 | Removes the key from the pool and touches no other slot |
| ConnectionPool.Child.MakeRoom | pool_connection_pool.c:220-302 | The loop picks an empty slot if there is one, else a slot of minimal close time, which is evicted |
| ConnectionPool.Child.ConnectBackend | child.c:1176-1230 | A connection is added iff there is a valid node, every valid node can be connected to and accepts the startup packet, and the client authenticates; the child ends iff a valid node cannot be connected to; any other failure leaves no half-made slot |
| ConnectionPool.Child.NewConnection | pool_connection_pool.c:603-656 | The loop connects to every valid node; the child ends iff one of them fails, and no valid node means no connection |
| ConnectionPool.Child.SendStartupPackets | child.c:1191-1216 | The loop succeeds iff every valid node accepts the startup packet |
| ConnectionPool.Child.constructor | pool_connection_pool.c:61-80 | A new pool is empty |
| ConnectionPool.Child.ConnectionPoolTimer | pool_connection_pool.c:307-337 | Closing a connection arms an alarm no later than its expiry unless one will fire |
| ConnectionPool.Child.BackendTimer | pool_connection_pool.c:347-427 | Discards exactly the expired idle connections and arms for the earliest of the rest, strictly in the future |
| ConnectionPool.Child.CheckTimer | child.c:208-213 | The flag is served and lowered, with every idle connection still watched |
| ConnectionPool.Child.PassTime | pool_connection_pool.c:342-345 | An alarm that falls due raises the flag, so every idle connection stays watched |
| ConnectionPool.MapKey | pool_connection_pool.c:84-180 | A pool with unique keys is a map: its keys are those of the occupied slots |
| ConnectionPool.ClearRemoves | pool_connection_pool.c:184-214 | Emptying a slot removes its key from the map |
| ConnectionPool.StoreUpdates | pool_connection_pool.c:220-302 | Filling a slot updates the map at the key, provided no other slot has it |
| SessionReset.ResettingSession.Reset | pool_process_query.c:107-157 | Resetting makes at most one call per reset query, one per remembered message and one more; if no step fails it has sent every reset query in order, but for ABORTs while all nodes were idle, and then DEALLOCATEs, and ends with no message remembered and every live node idle |
| SessionReset.ResettingSession.ResetBackend | pool_process_query.c:1339-1438 | One call sends the next reset query, or deallocates the first remembered statement, which leaves the list first; ABORT is skipped iff every node is idle; it reports the end iff neither is left |
| SessionReset.ResettingSession.Remove | pool_session_context.c:347-383 | The loop removes the first message of that kind and name, and reports whether there was one |
| SessionReset.ResettingSession.RemoveKind | pool_session_context.c:388-409 | The loop, shifting in place, removes exactly the messages of a kind and keeps the order of the rest |
| SessionReset.ResettingSession.Clear | pool_session_context.c:466-482 | The loop empties the list |
| SessionReset.ResettingSession.Complete | pool_proto_modules.c:1505-1534 | DISCARD ALL empties the list, DISCARD PLANS leaves the Bind messages only, DEALLOCATE takes off one PREPARE and one Parse message of the name, anything else nothing |
| SessionReset.OneRemoved | pool_session_context.c:388-409 | Removing one message of a kind does not change what removing all of them leaves |
| SessionReset.WithoutKindSplits | pool_session_context.c:388-409 | Removing a kind works piecewise |
| SessionReset.CompletesAlike | pool_session_context.c:347-409 | Seen through its messages, the list of prepared statements loses to a DEALLOCATE or DISCARD what the reset loop takes off |
| Md5.CalculateDigestFromBuffer | md5.c:253-316 | The digest is the one that sections 3.1 to 3.5 of RFC 1321 define, for every buffer whose padded length is at most 2^32 - 128, and for a null buffer that of the empty message |
| Md5.CreatePaddedCopyWithLength | md5.c:109-162 | For every message whose padded length fits 32 bits: the padded copy is the message, 0x80, zeros and the 64-bit little-endian bit count, up to the least multiple of 64 that fits |
| Md5.FFIs | md5.c:59-63 | The macro computes a = b + ((a + F(b,c,d) + X[k] + T[i]) <<< s), as section 3.4 of RFC 1321 writes it |
| Md5.GGIs | md5.c:65-69 | The macro computes a = b + ((a + G(b,c,d) + X[k] + T[i]) <<< s), as section 3.4 of RFC 1321 writes it |
| Md5.HHIs | md5.c:71-75 | The macro computes a = b + ((a + H(b,c,d) + X[k] + T[i]) <<< s), as section 3.4 of RFC 1321 writes it |
| Md5.IIIs | md5.c:77-81 | The macro computes a = b + ((a + I(b,c,d) + X[k] + T[i]) <<< s), as section 3.4 of RFC 1321 writes it |
| Md5.Round1 | md5.c:177-193 | The 16 unrolled assignments of round 1 are steps 1 to 16 of the table-driven definition |
| Md5.Round2 | md5.c:195-210 | Round 2 likewise |
| Md5.Round3 | md5.c:212-227 | Round 3 likewise |
| Md5.Round4 | md5.c:229-244 | Round 4 likewise |
| Md5.DoTheRounds | md5.c:165-250 | The unrolled rounds compress one block as the 64 steps do |
| Md5.StepsCompose | md5.c:165-250 | Steps i to j followed by j to k are steps i to k, which joins the rounds |
| Md5.DigestBlocks | md5.c:281-300 | The block loop, with its 32-bit index, ends and folds the compression over all blocks |
| Md5.BlockLoopStopsIff | md5.c:281-300 | The index leaves the last block without wrapping iff the padded length is at most 2^32 - 128 |
| Md5.NewLenIsPadded | md5.c:122-127 | The length computed is that of the padding, without wrapping |
| Md5.PaddingIsUnique | md5.c:109-162 | A message has one padding only |
| Md5.DigestIsUnique | md5.c:253-316 | So it has one digest only |
| Md5Facts.EmptyDigest | md5.c:83-102 | The digest of the empty message is d41d8cd98f00b204e9800998ecf8427e, as in section A.5 of RFC 1321: through all 64 constants, rotations and auxiliary functions |
| Md5Facts.FSelects | md5.c:52 | On any set of bits: F is Y where X is one and Z where X is zero |
| Md5Facts.GSelects | md5.c:53 | G is X where Z is one and Y where Z is zero |
| Md5Facts.HIsParity | md5.c:54 | H is Z where X and Y agree, and the contrary where they do not |
| Md5Facts.IFlips | md5.c:55 | I is the contrary of Y where X is one or Z zero, and Y elsewhere |
| Md5Facts.BlockRoundTrip | md5.c:281-300 | The words of a block, written low-order byte first, are its bytes in order |
| Md5Facts.DigestContinues | md5.c:281-300 | Blocks are taken in order, each from the state that the one before has left |
| Md5Facts.PaddingIs | md5.c:109-162 | The padding is 0x80 first, one to 64 bytes before a length that ends a block, and the length counts bits, low-order byte first |
| Md5Facts.HexReads | md5.c:319-331 | The two digits of a byte are worth it, the high-order one first, in small letters |
| Md5.BytesToHex | md5.c:319-331 | The loop writes the two lower-case digits of every byte in turn |
| Md5.HexIsInjective | md5.c:319-331 | Different digests, of any length, have different texts |
| IpRange.CidrMask | pool_ip.c:430-492 | A mask is made iff the text is a number to its end and fits the address family, and is the mask of that length |
| Numbers.DecimalReads | pool_ip.c:435-438 | A number printed in decimal is what strtol and atoi read back |
| Numbers.SignedReads | pool_ip.c:435-438 | White space and a sign before the digits are read |
| Numbers.TrailingText | pool_ip.c:435-438 | Text after the digits does not matter to atoi and makes a mask length no number |
| IpRange.RangeSockAddrInet6 | pool_ip.c:404-418 | The loop finds whether every byte matches under the mask |
| IpRange.Cidr4Matches | pool_ip.c:390-459 | An IPv4 address is in range under a /k mask iff its first k bits are the network's |
| IpRange.Cidr6Matches | pool_ip.c:404-484 | An IPv6 address is in range under a /k mask iff its first k bits are the network's |
| IpRange.PrefixMatches | pool_ip.c:404-418 | The byte-wise test with a prefix mask, for addresses of any length |
| IpRange.PromoteV4ToV6Addr | pool_ip.c:506-527 | The promoted address is v4-mapped |
| IpRange.PromoteV4ToV6Mask | pool_ip.c:541-564 | The promoted mask is all ones before the IPv4 part |
| IpRange.PromotedMaskIsCidr | pool_ip.c:541-564 | Promoting a /k mask gives the /(96 + k) mask |
| IpRange.PromotedEntryMatches | pool_ip.c:506-564 | An IPv6 client matches a promoted entry iff it is a v4-mapped address whose IPv4 part matches the original entry |
| IpRange.MatchHostEntry | pool_hba.c:698-721 | When a host line of pool_hba.conf applies to a client, over all pairs of families |
| IpRange.MappedClientMatchesAlike | pool_hba.c:698-721 | A v4-mapped client matches an IPv4 entry iff the plain IPv4 client does |
| IpRange.CidrEntryMatches | pool_hba.c:698-721 | An entry net/k takes the clients whose first k bits are the network's; an IPv4 entry also the v4-mapped IPv6 clients whose IPv4 part does, and no other; an IPv6 entry no IPv4 client |
| HbaToken.NextToken | pool_hba.c:1166-1255 | The loop returns the next token and stops where the definition by characters says, for every file and buffer size |
| HbaToken.ScanToken | pool_hba.c:1191-1235 | The scanning loop with its three quote flags |
| HbaToken.SkipLineFrom | pool_hba.c:1195-1213 | The rest of a line is skipped, up to but not past its end |
| HbaToken.QuotedRoundTrip | pool_hba.c:1166-1255 | A string without newline that fits the buffer, put in double quotes with inner quotes doubled, is read back exactly, stopping right after it |
| HbaToken.LongQuotedIsCut | pool_hba.c:1205-1213 | One that leaves no room for another character is cut to the buffer and the rest of the line skipped |
| HbaToken.QuotedRoundTripIff | pool_hba.c:1166-1255 | A quoted string without newline is read back exactly, stopping right after it, iff it leaves room for another character, or just fits and is the last of its line |
| HbaToken.UnquotedToken | pool_hba.c:1166-1255 | A plain token is read back as it is, and marked with a newline iff it is a keyword |
| HbaToken.QuotedPart | pool_hba.c:1191-1235 | Quotes may stand in the middle of a word: what they enclose is part of it, and it is no keyword |
| HbaToken.CommaEndsToken | pool_hba.c:1219-1222 | An unquoted comma ends a word, is part of the token and is read again; a keyword directly before it is not marked |
| HbaToken.LongWordIsCut | pool_hba.c:1205-1213 | A word that does not fit is cut to the buffer and the rest of its line skipped |
| HbaToken.BetweenTokens | pool_hba.c:1176-1185 | Blanks and commas before a token are skipped; the end of a line, and a comment up to it, are an empty token that leaves the next line |
| HbaToken.CommentEndsToken | pool_hba.c:1195-1203 | A comment after a word is skipped, but not the end of its line |
| HbaToken.CheckUser | pool_hba.c:849-872 | The loop accepts iff some token is the user or the unquoted keyword and no group comes first |
| HbaToken.CheckDb | pool_hba.c:878-908 | The loop accepts iff some token matches the database and no samegroup keyword comes before it |
| HbaToken.QuotedAllIsAName | pool_hba.c:1246-1254 | Quoted, all is the name of a user; unquoted it admits everyone |
| CopyData.ParseCopyData | pool_process_query.c:3632-3694 | The loop returns the field that the definition by characters gives, for every buffer, delimiter and column |
| CopyData.SplitInvertsPrint | pool_process_query.c:3632-3694 | A field of a printed row is read back with its backslashes doubled, and none is past the last, as long as no field up to it that has another after it ends in a backslash |
| CopyData.FieldIsExactIff | pool_process_query.c:3632-3694 | Behind fields that do not end in a backslash, a field is read back exactly iff it has no backslash |
| CopyData.TrailingBackslashMergesFields | pool_process_query.c:3648-3659 | The smallest row that does not come back: two fields are read as one |
| CopyData.TrailingBackslashMerges | pool_process_query.c:3648-3659 | Any field ending in a backslash is joined by the next: its last backslash is taken to escape the delimiter, whatever comes before and after |
| CopyData.ReadLastField | pool_process_query.c:3648-3659 | The last field is joined by nothing, even if it ends in a backslash |
| CopyData.SplitReadsColumns | pool_process_query.c:3632-3694 | What every printed row is read as, at every column number: the fields with their backslashes doubled, those ending in one joined by the next |
| CopyData.ColumnsAreFieldsIff | pool_process_query.c:3646-3676 | As many columns are read as were printed iff no field but the last ends in a backslash |
| CopyData.RowComesBackIff | pool_process_query.c:3632-3694 | Over all rows and delimiters: every column comes back exactly and nothing lies past the last iff no field has a backslash |
| CopyData.NothingDoubledIff | pool_process_query.c:3648-3659 | Doubling changes, and lengthens, exactly the fields with a backslash |
| CopyData.ReadWithoutDelimiter | pool_process_query.c:3632-3694 | Any text without the delimiter is one field, read as it is |
| CopyData.ReadToDelimiter | pool_process_query.c:3632-3694 | Any text up to the first delimiter is one field, unless it ends in a backslash: then the delimiter takes the place of the backslash and the field goes on |
| RowTags.ExtractTuples | pool_proto_modules.c:2955-2970 | The count of an UPDATE, DELETE or INSERT tag wherever the word stands, in that order of preference, and 0 for any other |
| RowTags.TagsRoundTrip | pool_proto_modules.c:2955-2970 | The row count printed into a tag is read back, past the OID of an INSERT |
| RowTags.OtherTags | pool_proto_modules.c:2955-2970 | Tags without these words count no rows |
| RowTags.RowsByWord | pool_proto_modules.c:2955-2970 | UPDATE is looked for before DELETE, DELETE before INSERT; the number stands after the word, for INSERT after the next blank |

## Left out

- ClientSession.Session.ReadKindFromNodes: nodes that disagree end the session; which of them are degenerated is in
  `Voting.ReadKindFromBackend`. So do nodes that agree without the virtual master among them, whose messages the source would
  then read all the same; the virtual master is among them whenever a statement is in flight (`Reading.ValidIsTarget`) and
  for a query without a context (`Forgetting.ShadeValid`).
- FailoverParent.Parent.Failover: raw mode. When a follow command handles a node-down request without a primary, the source
  reads in front of an array; the value read is a parameter.
- Md5.CreatePaddedCopyWithLength: takes messages whose padded length fits the 32 bits in which the source computes it.
- Md5.CalculateDigestFromBuffer: takes messages whose padded length is at most 2^32 - 128, because the block loop does not
  end otherwise (`Md5.BlockLoopStopsIff`).
- ConnectionPool.Child.ConnectBackend: authentication is one answer, not the exchange with each node.
- Waiting: a node that never answers keeps pgpool waiting; the model ends the session there.
- The extended protocol, protocol version 2, COPY data in a session, large objects, parallel mode, the query cache and the insert lock.
- Raw mode in the theorems about runs.
- The SQL parser: statements are values with the traits that the walkers would find. Of several statements in one text
  only the first is classified, as in the source, and a text that does not parse is a DELETE.
- The answers of nodes, the isolation level asked for, the primary found, clocks and broken sockets are parameters.
- NO LOAD BALANCE comments in the lockstep theorem on anything but plain reads with replicate_select off, because they send
  the statement to one node only.
- The deadlock result of `do_command`, `rewrite_timestamp`, DROP DATABASE signals, and `failover_if_affected_tuples_mismatch` within a
  session beyond its end; who is degenerated then is in `Voting.FindVictimNodes`.
- An empty set of targets, which the source leaves undefined, and `allow_close_transaction`, which is taken as set.
- The prepared list holds each statement's targets by value, not the query context it shares.
- Nodes attached after a reload are not seen by children that started before it.
- Signals, forks, sockets, SSL, authentication, PCP, status reports, configuration parsing beyond ports, and online recovery.
