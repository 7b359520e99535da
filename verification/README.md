# Board: models and proofs

Board is a platform that builds images and deploys them on Kubernetes. Most of it moves rows and
API objects around; the parts modelled here decide state or transform data, and each is one or two
modules. Code that updates state is modelled by classes and methods with loops, and each method is
tied to a specification function; the theorems are lemmas about those functions, over every input,
every run or every interleaving.

| files | what they model |
|---|---|
| `Lockout.dfy`, `LockoutRuns.dfy`, `FailureCount.dfy` | the failed-attempt counter of sign-in, its deny timer and its expiring store |
| `Session.dfy`, `SessionRuns.dfy` | sign-in and request handling over the session cache, and whole runs of both with token expiry and re-signing |
| `SignInBound.dfy`, `SignInGate.dfy`, `RequestGate.dfy` | the lockout's rate bound for the sign-ins of such runs, and what decides each sign-in and each request |
| `TerminalStream.dfy` | the byte buffer between a web socket and a shell, with its condition variable |
| `NodeProtocol.dfy`, `NodeRuns.dfy`, `NodeHistory.dfy` | adding and removing cluster nodes: the lock per address, log and status tables, transcripts, containers that call back |
| `PodTemplate.dfy`, `PodFields.dfy`, `PodRoundTrip.dfy`, `PodVolumes.dfy`, `Affinity.dfy`, `PodSpecs.dfy` | the wizard's containers as Kubernetes containers and volumes, and back |
| `Text.dfy`, `ExecForm.dfy`, `DockerfileScan.dfy` | reading Dockerfile text: exec form, comments and continuations, instructions |
| `DockerfileTemplate.dfy`, `DockerfilePrint.dfy`, `DockerfileFields.dfy`, `DockerfileText.dfy` | printing a Dockerfile through the template and reading the whole file again, and what any file reads as |
| `HelmJoin.dfy`, `ServiceStatement.dfy`, `HelmRelease.dfy`, `ReleaseRows.dfy`, `ReleaseRuns.dfy` | joining a Helm release's services and workloads, registering them, deleting the release again, and what either leaves when it stops half way |
| `Paging.dfy` | chart pages |
| `NestedMap.dfy` | setting and reading a path in nested maps on the heap |
| `Dashboard.dfy` | the dashboard's pod and container counters |
| `Boot.dfy` | start-up: the initializing goroutine and the receiver of its errors |
| `Wrappers.dfy` | option and result types, facts about sequences, and facts that steps set and clear |

`dafny verify dfyconfig.toml` checks everything. Every lemma switches Dafny's automatic induction
off, so that what a proof uses is written in it.

## Where the code falls short of what it is for

The proofs follow the code. These are the places where a property one would expect is false: each
item names the lemmas with concrete runs or inputs, and the theorem that says exactly when the
property holds.

- An attempt made in second 120 of a block freezes the elapsed time, and the block never ends while
  the entry lives (`LockoutRuns.BlockFrozenAt120`; exactly: `LockoutRuns.BlockInRun`).
- Eleven unblocked attempts normally take 121 seconds; if the first of them loses its entry between
  two cache reads they need not (`Lockout.ElevenInOneNanosecond`; exactly:
  `LockoutRuns.ElevenSufficeUnlessLost`).
- A request whose token is the name of a signed-in user, or a sign-in that displaces a session and
  then gets no token, re-admits every unexpired token of that user
  (`SessionRuns.NameRequestBreaksTheRule`, `SessionRuns.UnsignedSignInBreaksTheRule`; exactly:
  `SessionRuns.SingleSessionKept`; all of them then work side by side: `RequestGate.SessionsSideBySide`).
- A callback whose log row was deleted, or whose row or transcript cannot be written, leaves the
  address locked (`NodeRuns.DeletedLogLeavesLock`, `NodeRuns.UnwrittenLeavesLock`; exactly:
  `NodeRuns.LockedForGoodIff`).
- A log that the status table uses is deleted when the guard cannot read that table
  (`NodeRuns.BlindGuardDropsLog`; exactly: `NodeRuns.StatusLoggedKept`).
- The container viewer takes mount i to belong to volume i and shows a second container's mount with
  the first container's source (`PodRoundTrip.SecondContainerMisread`; exactly:
  `PodRoundTrip.PodRoundTrips`).
- A continuation piece that starts with `#` is lost with its comment
  (`DockerfileScan.CommentPieceIsLost`; exactly: `DockerfileScan.BrokenLineIsNeutral`).
- A printed Dockerfile can stop its reader, at an environment entry without a value
  (`DockerfileText.BareEnvStops`; exactly: `DockerfileScan.FailsOnBareEnv`), or come back changed
  (`DockerfileText.CommaChanges`; exactly: `DockerfileText.DockerfileRoundTrip`).
- Installing and deleting a release removes a matched service that was registered before
  (`ReleaseRuns.RegisteredServiceLost`; exactly: `ReleaseRuns.InstallDeleteInverse`).
- An installation that fails at one of its rows removes the release but not the rows before that one
  (`ReleaseRuns.OrphanLeft`; exactly: `ReleaseRuns.InstallKeepsOwned`).
- A failure to read the system information may end as `NOT_READY` instead of the error
  (`Boot.MessageHidden`; exactly: `Boot.EarlyFailureStatus`), and a failure to read the Kubernetes
  version crashes the server, because the step goes on with the missing answer
  (`Boot.FourthStepCrashes`; exactly: `Boot.RunsEndAs`).

## Model

| member | source | states |
|---|---|---|
| Lockout.TemporaryStore.CheckAuthFailedTimes | src/apiserver/service/auth/auth.go:52-88 | one attempt: the answer and the stored record, for an existing, a missing and an expiring entry, with a clock that may move between the reads |
| Lockout.TemporaryStore.ResetAuthFailedTimes | src/apiserver/service/auth/auth.go:91-93 | a successful sign-in removes the record; removing an absent one is the only error |
| Lockout.BumpKeepsRecord | src/apiserver/service/auth/auth.go:56-80 | an attempt keeps: blocked iff ten failures, elapsed time within 0 to 120, remaining time its complement; a block's start never moves |
| Lockout.StoreIsGood | src/apiserver/service/auth/auth.go:52-88 | in every well-timed run of attempts and resets of any principals every record has that shape |
| Lockout.FrozenBlockNeverEnds | src/apiserver/service/auth/auth.go:66-78 | a block whose elapsed time reads 120 refuses every later attempt |
| Lockout.BlockEndsUnlessTouchedAt120 | src/apiserver/service/auth/auth.go:66-78 | a sequence of attempts on a block is refused throughout iff none comes after second 120 before one is made in second 120 |
| Lockout.RateBound | src/apiserver/service/auth/auth.go:52-88 | in every run, eleven unblocked attempts of a principal without a reset between them span 121 seconds (twelve if the entry expired within the first), store expiry included |
| LockoutRuns.ElevenSufficeUnlessLost | src/apiserver/service/auth/auth.go:52-88 | for every well-timed run that ends in an attempt: however it goes on, eleven unblocked attempts from there span 121 seconds iff that attempt does not lose its entry between the two cache reads (or takes that long itself) |
| LockoutRuns.LostGoesOn | src/apiserver/service/auth/auth.go:53-60 | every run that loses its entry goes on to eleven unblocked attempts that end with the losing one |
| LockoutRuns.BlockInRun | src/apiserver/service/auth/auth.go:54-80 | in every well-timed run, attempts that follow a block within the entry's 300 seconds are all refused iff none comes after second 120 before one in second 120; after a recorded 120 all are |
| LockoutRuns.BlockFrozenAt120 | src/apiserver/service/auth/auth.go:62-69 | a run refused two minutes after the block's last second |
| FailureCount.FailuresCounted | src/apiserver/service/auth/auth.go:52-88 | in every well-timed run a principal's failure count is the number of its attempts, but for those that lost the entry, since its entry started or its last block ended, whichever is later; a reset ends the entry |
| FailureCount.NineAfterBegin | src/apiserver/service/auth/auth.go:56-80 | from the start of an entry or the end of a block on, an attempt with at most eight counted ones between is left unblocked, and the tenth is blocked unless it takes 121 seconds itself |
| Lockout.ElevenInOneNanosecond | src/apiserver/service/auth/auth.go:53-60 | a well-timed run in which the twelfth is needed |
| Session.ApiServer.GetCurrentUser | src/apiserver/controllers/commons/base.go:172-227 | a request's answer and the whole new cache: verified, expired and re-signed, unreachable, displaced session, and the nil dereference for a user without a row |
| Session.ApiServer.ProcessAuth | src/apiserver/controllers/commons/auth.go:34-130 | a sign-in's answer, the new cache with its 300-second captcha flag, and the new failure store; the lockout gate comes first and the reset at the end cannot fail |
| SessionRuns.SingleSessionKept | src/apiserver/controllers/commons/base.go:172-227 | a step keeps "each user's name holds the latest token, and the user's claims lie under no other" iff it is not one of two disturbing steps |
| SessionRuns.SignInKeeps | src/apiserver/controllers/commons/auth.go:92-119 | the same for a sign-in that reaches signing |
| SessionRuns.AcceptedIffLatest | src/apiserver/controllers/commons/base.go:172-227 | a request is accepted iff the token server answers, its token is some user's latest and, if expired, it can be signed again; the answer carries that user's latest token |
| SessionRuns.BackedKept | src/apiserver/controllers/commons/base.go:174-200 | the claims behind the latest tokens stay cached iff no request with such a token meets an unreachable token server |
| SessionRuns.SingleSessionAlways | src/apiserver/controllers/commons/auth.go:97-119 | at every moment of every calm run each user has a single session |
| SessionRuns.OnlyLatestAccepted | src/apiserver/controllers/commons/base.go:202-226 | whatever the network does, a calm run accepts no token but the latest of its user |
| SessionRuns.AcceptedExactly | src/apiserver/controllers/commons/base.go:172-227 | with an answering token server a calm run accepts a token iff it is the one issued last to some user |
| SessionRuns.LockoutRunExplainsStore | src/apiserver/controllers/commons/auth.go:34-75 | the failure store of a whole run of sign-ins and requests is that of its lockout events |
| SignInBound.SignInRateBound | src/apiserver/controllers/commons/auth.go:34-75 | in every run with well-timed sign-ins, whatever comes between: eleven sign-ins of one principal that are not blocked, none but the last of them accepted, span 121 seconds (twelve if the entry expired within the first) |
| SignInGate.DecidedByHistory | src/apiserver/controllers/commons/auth.go:34-130 | in every well-timed run a sign-in that finds an entry is decided by the attempts since the record began, the flag of the last 300 seconds, the password and the token server: with fewer than two attempts before it the password decides (and the captcha if flagged), with two to eight the captcha as well; from nine on it is turned away if blocked, issuing nothing and changing nothing but the lockout store |
| SignInGate.FirstIsLetIn | src/apiserver/controllers/commons/auth.go:34-75 | a sign-in without an entry, or that loses it, is never blocked; the flag alone makes a captcha due |
| SignInGate.BlockedTurnedAway | src/apiserver/controllers/commons/auth.go:41-49 | in every run a blocked sign-in is rejected, no token is issued and nothing but the lockout store changes |
| SignInGate.FlagByHistory | src/apiserver/controllers/commons/auth.go:50-91 | in every allowed run the captcha flag is cached iff some sign-in asked for a captcha without reaching the token server, and since then none has reached it and no request named the flag's key; it bears the time of the last |
| RequestGate.RequestAnswers | src/apiserver/controllers/commons/base.go:172-227 | for every cache: when a request is rejected, stops the server, or is accepted, as whom and with which token |
| RequestGate.RequestLeaves | src/apiserver/controllers/commons/base.go:172-227 | for every cache: which keys a request changes and what they hold afterwards |
| SessionRuns.DisturbedReadmitsAll | src/apiserver/controllers/commons/base.go:202-226 | after a disturbing step every unexpired token ever issued to that user is accepted |
| RequestGate.SessionsSideBySide | src/apiserver/controllers/commons/base.go:202-226 | and goes on being accepted: requests with the user's unexpired tokens, in any order and number, all succeed |
| SessionRuns.NameRequestBreaksTheRule | src/apiserver/controllers/commons/base.go:194-226 | a concrete run that does this with a request |
| SessionRuns.UnsignedSignInBreaksTheRule | src/apiserver/controllers/commons/auth.go:92-119 | and one with a sign-in that gets no token |
| TerminalStream.WSStreamHandler.AppendInput | src/apiserver/service/pod.go:53-60 | appending is the protocol's append step: it keeps the invariant of every interleaving, and afterwards returned and buffered bytes together are all that was received |
| TerminalStream.WSStreamHandler.CopyOut | src/apiserver/service/pod.go:80-84 | copying is the protocol's copy step: what the caller gets are the next bytes received, as many as fit into the slice or wait in the buffer, and the rest of the slice is untouched |
| TerminalStream.InvariantAlways | src/apiserver/service/pod.go:35-84 | over every interleaving: mutual exclusion, bytes in order and none lost, no reader asleep beside a non-empty buffer without a signal to come |
| TerminalStream.ReturnedIsPrefix | src/apiserver/service/pod.go:53-84 | what readers got is a prefix of what was received, and all of it once the buffer is empty |
| TerminalStream.ReadHandsOut | src/apiserver/service/pod.go:75-84 | however a read of n bytes is interleaved it hands out nothing before it leaves, and then n bytes, or fewer if it has emptied the buffer |
| TerminalStream.ReadCompletes | src/apiserver/service/pod.go:75-84 | a reader beside a non-empty buffer returns within nine steps under every schedule, without further input |
| NodeProtocol.NodeServer.AddRemoveNode | src/adminserver/controllers/nodeController/nodeController.go:244-261 | a request's answer and the whole new state on each of its failing paths, a failing completion included, and on success |
| NodeProtocol.NodeServer.AddRemoveNodeByContainer | src/adminserver/service/nodeService/nodeService.go:26-95 | the same for the service call, which leaves at most the lock to its caller |
| NodeProtocol.NodeServer.LaunchAnsibleContainer | src/adminserver/service/nodeService/nodeService.go:97-138 | a failed launch completes the operation as failed, a successful one leaves a container running |
| NodeProtocol.NodeServer.UpdateLog | src/adminserver/service/nodeService/nodeService.go:140-181 | completion of an operation as far as it gets: no log row, a row or transcript that cannot be written (the lock stays), a status change that fails (only logged), and full completion |
| NodeProtocol.NodeServer.InsertLogDetail | src/adminserver/service/nodeService/nodeService.go:200-235 | the transcript of a second is stored once, a later one of the same second is lost, and a failure stores none |
| NodeProtocol.NodeServer.DeleteNodeStatus | src/adminserver/dao/nodeDao/nodeDao.go:61-67 | the loop drops every status row of the address |
| NodeProtocol.NodeServer.CallBackAction | src/adminserver/controllers/nodeController/nodeController.go:154-177 | the one callback of a container: the new state, and its answer after the deletion of a removed node from the cluster |
| NodeProtocol.NodeServer.DeleteNodeLog | src/adminserver/controllers/nodeController/nodeController.go:107-123 | the answer and the new state: in use, a row or transcript that cannot be deleted, and a guard that cannot read the status table and lets the deletion through |
| NodeRuns.InvariantAlways | src/adminserver/service/nodeService/nodeService.go:26-181 | in every reachable state, whichever writes fail: one container per node, an address locked iff it runs or could not be completed, every container knows its log row, and the status table lists exactly the nodes whose last recorded callback was an add |
| NodeRuns.StatusLoggedKept | src/adminserver/service/nodeService/nodeService.go:287-299 | a step keeps a log row and a transcript for every status row iff it does not delete a log in use, which only a guard that cannot read the status table allows |
| NodeRuns.LoggedWhileUsedLogsStay | src/adminserver/service/nodeService/nodeService.go:26-181 | every run without such a step has them in every state |
| NodeRuns.BlindGuardDropsLog | src/adminserver/dao/nodeDao/nodeDao.go:52-59 | a run with such a step, whose status row has no log |
| NodeRuns.StatusChange | src/adminserver/service/nodeService/nodeService.go:166-180 | a successful callback makes the status table say what it did to that node, and changes no other |
| NodeRuns.FailedStartReleases | src/adminserver/controllers/nodeController/nodeController.go:244-261 | every failing request ends unlocked with locks, containers and status as they were; a refused one changes nothing and is refused iff the address is locked |
| NodeRuns.RowsPresentKept | src/adminserver/service/nodeService/nodeService.go:287-299 | running operations keep their log rows iff nobody deletes the log of one |
| NodeRuns.LockedForGoodIff | src/adminserver/service/nodeService/nodeService.go:140-181 | in every run an address is locked with nothing running iff some callback from it found no log row or could not write row or transcript |
| NodeRuns.LockedExactlyIff | src/adminserver/service/nodeService/nodeService.go:140-181 | so all addresses are locked iff their containers run, iff every callback so far got through |
| NodeRuns.LockedExactlyWhileRunning | src/adminserver/service/nodeService/nodeService.go:287-299 | it is enough that no log of a running operation is deleted and rows and transcripts can be written |
| NodeRuns.DeletedLogLeavesLock | src/adminserver/service/nodeService/nodeService.go:140-150 | a run that leaves an address locked with nothing running, after its log was deleted |
| NodeRuns.UnwrittenLeavesLock | src/adminserver/service/nodeService/nodeService.go:140-165 | the same after a row or transcript that could not be written |
| NodeHistory.LogTableRecords | src/adminserver/service/nodeService/nodeService.go:66-181 | in every run a log row is in the table iff some start opened it and no later step deleted its second; it bears that start's address, kind and time, is completed iff a callback or a failed launch of the operation got as far as writing it, and its success is what that callback reported, false for a failed launch |
| NodeHistory.CompletedRowStays | src/adminserver/service/nodeService/nodeService.go:140-152 | a completed row never changes again while it is there |
| NodeHistory.TranscriptRecords | src/adminserver/service/nodeService/nodeService.go:183-235 | in every run a second has a transcript iff an operation ended in storing one and none was dropped since; it is the whole text of the first such operation, with its heading, output, log file and end line, never the text for a lost cache entry |
| NodeHistory.StatusTableRecords | src/adminserver/service/nodeService/nodeService.go:166-180 | in every run the status table has a row iff a successful callback added it, with the second of its log, and no later successful callback removed the node; a node added twice has both rows |
| PodTemplate.SetDeploymentContainers | src/apiserver/service/serviceconfig.go:521-625 | the loops compute the marshalled list of the specification |
| PodTemplate.GetDeploymentContainers | src/apiserver/service/serviceconfig.go:628-723 | the loops compute the viewed list, or the index out of range or nil reference that stops the viewer |
| PodFields.MarshalledContainer | src/apiserver/service/serviceconfig.go:521-625 | what every marshalled container holds: image text, shell command, ports in 32 bits, resources without the empty amounts, and the named entries and mounts in order, a file mounted at its path joined with its name in the container |
| PodFields.ViewedContainer | src/apiserver/service/serviceconfig.go:628-723 | what the viewer makes of any Kubernetes container, field by field, or what in it stops the viewer |
| PodFields.ImageRead | src/apiserver/service/serviceconfig.go:699-703 | any image text is read iff its last colon comes after its first slash, as the name and tag around that colon |
| PodRoundTrip.ImageRoundTrip | src/apiserver/service/serviceconfig.go:699-703 | a marshalled image is always parsed, and comes back iff the registry has no slash, the tag no colon and the project is empty |
| PodRoundTrip.EnvRoundTrip | src/apiserver/service/serviceconfig.go:678-693 | a marshalled environment is always viewed, and comes back iff every entry is named and fills only the fields of its kind |
| PodRoundTrip.PortsRoundTrip | src/apiserver/service/serviceconfig.go:591-595 | ports come back iff all fit 32 bits |
| PodRoundTrip.MountsRoundTrip | src/apiserver/service/serviceconfig.go:645-676 | mounts are viewed without an index out of range iff the named ones do not outnumber the volumes, and come back iff each is named, tidy and beside a volume of its source |
| PodRoundTrip.ContainerRoundTrip | src/apiserver/service/serviceconfig.go:628-723 | name, directory, command and resources always come back; the container does iff its other parts do |
| PodRoundTrip.ContainersRoundTrip | src/apiserver/service/serviceconfig.go:628-723 | the same for every list and every volume list |
| PodRoundTrip.PodRoundTrips | src/apiserver/service/serviceconfig.go:628-787 | containers with folder mounts come back beside their own pod's volumes iff each container's mount sources are a prefix of the volume list's |
| PodRoundTrip.SingleContainerRoundTrips | src/apiserver/service/serviceconfig.go:628-787 | a pod of one such container always comes back |
| PodRoundTrip.SecondContainerMisread | src/apiserver/service/serviceconfig.go:646-673 | a pod of two does not |
| PodVolumes.SetDeploymentVolumes | src/apiserver/service/serviceconfig.go:725-787 | the nested loops give one volume per known-typed mount, in order |
| PodVolumes.AddInitContainerVolumes | src/apiserver/service/serviceconfig.go:790-854 | the nested loops with the search add the volumes one by one |
| PodVolumes.FindAfterAdding | src/apiserver/service/serviceconfig.go:799-851 | looking a name up after adding is looking it up in the plain concatenation: skipping duplicates changes no answer |
| PodVolumes.DistinctKept | src/apiserver/service/serviceconfig.go:799-851 | names are distinct after adding iff they were before |
| PodVolumes.PodFind | src/apiserver/service/serviceconfig.go:725-854 | a name finds the first known-typed mount of it, containers before init containers |
| PodSpecs.MarshalDeployment | src/apiserver/service/serviceconfig.go:890-929 | the whole deployment: names, labels, replicas in 32 bits, volumes, containers, the node selector for a group, a host or none, affinity, the edge toleration only for edge services, and none for no configuration |
| PodSpecs.MarshalStatefulSet | src/apiserver/service/serviceconfig.go:931-970 | the whole stateful set with its governing service |
| PodSpecs.VolumesResolve | src/apiserver/service/serviceconfig.go:890-915 | every mount of every container and init container names a volume iff each mounted name belongs to some known-typed mount |
| PodSpecs.KnownMountsResolve | src/apiserver/service/serviceconfig.go:890-915 | they all do if every named mount has a known type |
| PodSpecs.InitVolumesExtend | src/apiserver/service/serviceconfig.go:790-854 | the containers' volumes stay a prefix, and names are as distinct as before |
| PodSpecs.InitMountShadowed | src/apiserver/service/serviceconfig.go:799-808 | an init container's name finds the containers' volume if there is one, and only then not its own |
| Affinity.SetAffinity | src/apiserver/service/serviceconfig.go:856-882 | the loop splits the list into the two term lists; setJobAffinity has the same body |
| Affinity.GetAffinity | src/apiserver/service/job.go:254-273 | the two loops read the lists back, or stop at a term without an expression |
| Affinity.TermsOfItems | src/apiserver/service/serviceconfig.go:856-882 | each item is a term on the side of its flag, in its order there, that selects its services by the app label host by host |
| Affinity.ItemsOfTerms | src/apiserver/service/job.go:254-273 | each affinity term is read with flag 0 and then each anti-affinity term with flag 1, as the names of its first expression |
| Affinity.ReadBackIsPartition | src/apiserver/service/job.go:225-273 | reading back gives the stable partition with flags 0 and 1 |
| Affinity.ReadBackKeepsItems | src/apiserver/service/job.go:225-273 | as multisets nothing is lost or doubled |
| Affinity.MarshalAgain | src/apiserver/service/job.go:225-273 | marshalling what was read back gives the same terms |
| Affinity.ReadBackUnchanged | src/apiserver/service/job.go:225-273 | a list comes back unchanged iff flags are 0 or 1 and affinities come first |
| ExecForm.Str2ExecForm | src/apiserver/service/image.go:27-33 | the words are quoted in place and joined |
| ExecForm.Exec2Str | src/apiserver/service/image.go:35-44 | brackets, blanks and quotes are taken off in place |
| ExecForm.ExecFormRoundTrip | src/apiserver/service/image.go:27-44 | reading the bracketed print of a command gives it back iff it has no comma and no word starts or ends with a quote, whatever blanks are inside the brackets |
| DockerfileFields.ShellFormKept | src/apiserver/service/image.go:35-44 | a command is read as it stands iff it has no comma and neither begins nor ends with a blank, a double quote or a bracket of the list form |
| Text.SplitSuffix | src/apiserver/service/image.go:36-37 | splitting with a separator-free tail extends the last part |
| Text.SplitJoin | src/apiserver/service/image.go:28-43 | splitting undoes joining of separator-free parts |
| DockerfileScan.GetDockerfileInfo | src/apiserver/service/image.go:262-317 | the single loop with its accumulator does what two passes do: drop comments, then join continued lines, and interpret |
| Text.SpaceCodePoints | src/apiserver/service/image.go:264-276 | what the library's TrimSpace takes off, by code point |
| DockerfileScan.FailsOnBareEnv | src/apiserver/service/image.go:305-313 | reading stops the program iff some logical line is an ENV without a value |
| DockerfileFields.LinesReadAs | src/apiserver/service/image.go:274-317 | whatever the logical lines are: base, author and the two commands are the last ones given, the other fields collect every one in order, a copy is cut at its last blank and a variable at its first, and reading stops iff a line names a variable without a value |
| DockerfileFields.FieldsMean | src/apiserver/service/image.go:274-282 | a trimmed line is an instruction with its trimmed argument iff it has a first word and a blank after it |
| DockerfileScan.BrokenLineIsNeutral | src/apiserver/service/image.go:264-272 | splitting any line of any file in two with a backslash changes no logical line iff it breaks cleanly: by cases on which piece is a comment, what the second piece adds, and whether anything after it is finished |
| DockerfileScan.CommentPieceIsLost | src/apiserver/service/image.go:264-266 | a file in which a piece does |
| DockerfileTemplate.LinesReturn | src/apiserver/service/image.go:262-317 | the printed lines read one by one give the Dockerfile again iff each of its nine fields comes back from its own lines |
| DockerfilePrint.PrintedLinesSay | src/apiserver/templates/dockerfile-template:1-17 | the printed lines of any Dockerfile, section by section in the template's order, with what is left out when empty |
| DockerfilePrint.ExecFormText | src/apiserver/service/image.go:27-33 | the exec form is the command between quotes with every blank turned into a word boundary |
| DockerfileTemplate.PrintedLinesRead | src/apiserver/templates/dockerfile-template:1-17 | what the reader makes of the printed lines of any Dockerfile, field by field, or the ENV it stops at |
| DockerfileTemplate.EnvKeptIff | src/apiserver/service/image.go:305-313 | an environment entry comes back iff both parts are there, the name has no blank and the value none at its ends |
| DockerfileTemplate.CopiesReturn | src/apiserver/service/image.go:287-299 | copies come back iff source and target have no commas or outer quotes and the target is one word |
| DockerfileText.ContinuedLost | src/apiserver/service/image.go:267-272 | a file with a continued line never reads as what was printed: fewer logical lines are left than fields to fill |
| DockerfileText.DockerfileRoundTrip | src/apiserver/service/image.go:173-317 | printing any Dockerfile through the template and reading the text gives it again, in all nine fields, iff the fields come back, hold no newline and end no line in a backslash |
| DockerfileText.BareEnvStops | src/apiserver/service/image.go:305-313 | any Dockerfile with one environment entry and no value for it stops the reader |
| DockerfileText.CommaChanges | src/apiserver/service/image.go:27-44 | any command with a comma comes back as another |
| DockerfileText.PrintedCommandIsRead | src/apiserver/templates/dockerfile-template:16 | the CMD line printed for a command is read back as that command iff the command is plain and holds no newline |
| HelmJoin.JoinServicesAndWorkloads | src/apiserver/service/helm.go:352-417 | one pass with services grouped by name pairs what nested loops would pair, and every paired text carries the namespace |
| HelmJoin.JoinMeaning | src/apiserver/service/helm.go:352-417 | a workload is paired with a service iff that is the first of its name and both texts can be rewritten |
| HelmJoin.JoinOrdered | src/apiserver/service/helm.go:380-417 | the pairs come in the order of the workloads, at most one for each |
| HelmJoin.GroupServices | src/apiserver/service/helm.go:357-370 | the groups are those of the names that have services, each with exactly its services in order |
| ServiceStatement.GenerateDeleteServiceByNamesSQL | src/common/dao/service.go:77-89 | the text has one pair of placeholders per service, the parameters name and project in turn |
| ServiceStatement.StatementBindsServices | src/common/dao/service.go:77-89 | parsing the placeholders and binding the parameters gives back exactly the list of services |
| HelmRelease.Tables.DeleteServiceByNames | src/common/dao/service.go:65-75 | exactly the rows of the named services go, none for an empty list, which never fails, and none if the statement fails |
| HelmRelease.Tables.ServiceExists | src/apiserver/service/serviceyml.go:50-57 | found iff a row has that name and project |
| HelmRelease.Tables.AddHelmReleaseToBoardService | src/apiserver/service/helm.go:298-350 | one row per accepted match is appended; none if a lookup or a service type fails, and those before the first failing insertion otherwise |
| ReleaseRows.InstallationPlans | src/apiserver/service/helm.go:298-350 | in manifest order there is one new row per stateful set and one per deployment whose service had none, numbered on, with the release, both texts in their namespace and the type that the rewritten text has; no row if a match cannot be prepared, else those before the first refused one; it completes iff nothing fails |
| ReleaseRows.EveryServiceRegistered | src/apiserver/service/helm.go:298-350 | after an installation in which nothing fails the table has a row of every matched service |
| HelmRelease.Tables.InitBoardRelease | src/apiserver/service/helm.go:239-251 | the release stays stored iff its services could be added or it could not be removed again, and a failure to add them is not reported |
| HelmRelease.Tables.DeleteRelease | src/apiserver/service/helm.go:484-512 | the answer, the releases and the rows for each step at which a deletion can fail; when it gets through the rows of all matched services are gone |
| ReleaseRuns.InstallDeleteInverse | src/apiserver/service/helm.go:298-512 | deleting what was installed, all of it or any number of rows, restores the table iff it held no row of a matched service |
| ReleaseRuns.RegisteredServiceLost | src/apiserver/service/helm.go:484-512 | a table whose row is gone after installing and deleting a release of its name |
| ReleaseRuns.InstallThenDelete | src/apiserver/service/helm.go:239-512 | the two operations one after the other, wherever either stops: the rows are the old ones iff, where the deletion gets through, they held none of a matched service and, where it does not, none was inserted |
| ReleaseRuns.InstallKeepsOwned | src/apiserver/service/helm.go:239-251 | an installation leaves no row without a stored release iff it completes, inserts nothing or cannot remove the release again |
| ReleaseRuns.DeleteKeepsOwned | src/apiserver/service/helm.go:484-512 | a deletion that gets through leaves none; one that stops after the release row does so iff the release had no row |
| ReleaseRuns.OrphanLeft | src/apiserver/service/helm.go:239-251 | an installation that leaves one |
| Paging.Pagination.GetPageCount | src/common/model/pagination.go:12-22 | the count and the field it writes, which page size zero leaves alone |
| Paging.PageCountIsLeast | src/common/model/pagination.go:12-22 | it is the least number of pages that hold everything |
| Paging.PaginateHelmRepositoryDetail | src/apiserver/service/helm.go:162-184 | the slice of a page, its empty answer past the end, and the slices that stop the program |
| Paging.PageIsWindow | src/common/model/pagination.go:24-29 | each page is the offset and limit window of its number, for every positive size |
| Paging.PagesCoverEverything | src/apiserver/service/helm.go:162-184 | pages 1 to the count are non-empty, not too long and concatenate to the list; later ones are empty |
| NestedMap.SetNestedField | src/common/utils/map.go:8-19 | the walk through the heap leaves the root standing for the tree with that path set, and the maps unshared |
| NestedMap.GetNestedField | src/common/utils/map.go:23-40 | the walk answers what the tree answers: found, missing, or the index of the field whose parent is no map |
| NestedMap.AnswerMeans | src/common/utils/map.go:23-40 | an answer is a path's iff its keys lead so far: found after all of them, an error at the key whose parent is neither a map nor nil, missing at nil or at a map without the next key |
| NestedMap.Rebuild | src/common/utils/map.go:8-19 | from the last map on the path upwards each map stands for its updated tree |
| NestedMap.SetThenGet | src/common/utils/map.go:8-40 | the value is found where it was set |
| NestedMap.GetBelow | src/common/utils/map.go:8-40 | longer paths read inside the value, with shifted error positions |
| NestedMap.GetOnTheWay | src/common/utils/map.go:8-40 | a path that ends on the way reads the map there with the rest of the path set in it |
| NestedMap.GetBeside | src/common/utils/map.go:8-40 | a path that leaves at a node that was a map reads as before, any other is missing now |
| NestedMap.BesideUnchanged | src/common/utils/map.go:8-40 | so a path beside changes its answer iff it used to run into something that is no map |
| NestedMap.SetTwice | src/common/utils/map.go:8-19 | the second of two settings is all that is left |
| NestedMap.SetSwaps | src/common/utils/map.go:8-19 | settings of paths that part can be swapped |
| Dashboard.DashboardInfo.GetServiceInfo | src/apiserver/service/prometheus.go:273-309 | the pods as the queries gave them, none for a service without labels; rows of zeros with name and timestamps, and those left behind by a failing query |
| Dashboard.DashboardInfo.CountPod | src/apiserver/service/prometheus.go:312-335 | every row is raised by its hits and the first by all, up to and including the pod whose query fails |
| Dashboard.DashboardInfo.CountContainer | src/apiserver/service/prometheus.go:338-352 | the same for containers |
| Dashboard.SeenAllocated | src/apiserver/service/prometheus.go:283-335 | no counter is used before its row was given one |
| Dashboard.CountingKeepsBalance | src/apiserver/service/prometheus.go:312-352 | counting with one counter keeps the first row equal to the sum of the others at every timestamp, for both counters |
| Dashboard.FinalCounts | src/apiserver/service/prometheus.go:312-352 | each service's row ends with the number of pods in its query's answer whose text contains the timestamp, and of their containers likewise |
| Dashboard.DashboardInfo.CollectServices | src/apiserver/service/prometheus.go:101-109 | the three steps in sequence: succeed iff no query fails, and then every row counts its answered pods and containers; balanced even if one fails, with the pods counted up to the failing query |
| Boot.InvariantAlways | src/apiserver/main.go:197-291 | what every interleaving of the two goroutines keeps |
| Boot.NoLaterBody | src/apiserver/main.go:80-94 | once a step reports an error no later step's body is entered, and all errors are that step's |
| Boot.ReadyIffNoError | src/apiserver/main.go:276-291 | READY is written iff no step ever reports an error, and then all five have run in order |
| Boot.RunsEnd | src/apiserver/main.go:248-291 | every run is finite |
| Boot.RunsEndAs | src/apiserver/main.go:96-291 | how each run ends: the status, and whether the initializer ends, blocks for good or crashes |
| Boot.SecondErrorBlocks | src/apiserver/main.go:96-291 | a run can end with two errors of one step, its initializer blocked on the second, iff the step is the third or the fifth |
| Boot.EarlyFailureStatus | src/apiserver/main.go:262-291 | a run that is over after a failure to read the system information says NOT_READY iff the receiver wrote the error before the initializer wrote NOT_READY, and the error otherwise |
| Boot.FourthStepCrashes | src/apiserver/main.go:177-195 | a run that crashes in the fourth step |
| Boot.MessageHidden | src/apiserver/main.go:262-291 | a run in which NOT_READY overwrites the error |
| Boot.MessageStays | src/apiserver/main.go:262-291 | and one in which it does not |

## Left out

- Foreign systems (Kubernetes, Helm, GitLab, Jenkins, Docker, SSH, LDAP, Prometheus, the registry, the token server's cryptography) appear only as the answers they give, which are parameters.
- SignOff, the cache-store endpoint and the admin server's own session handling are not steps of the session runs.
- The other fields of the claims and the redirect of sign-in are not modelled; the clock readings of the captcha flag and of the lockout are independent parameters.
- Each request is one atomic step in the session and node runs; lost updates between concurrent requests are not modelled.
- The node cache's own expiry and addresses that join several nodes are not modelled.
- Resize messages, malformed messages and closing of the terminal socket are not steps; there is one reader.
- PodTemplate.GetDeploymentContainers: nil and empty lists are the same, and a volume has at most one source.
- Path joining, the node-group lookup and the test whether a line contains a timestamp are parameters.
- NestedMap.SetNestedField: an empty path stops the original and is excluded; nil maps of map type are not modelled; a map given as value must not already be elsewhere in the tree.
- HelmRelease.Tables.AddHelmReleaseToBoardService: the manifest parses, MySQL's case-insensitive comparison of names is not modelled, and rewriting a text's namespace twice is taken to equal rewriting it once, which NestedMap.SetTwice justifies for the map behind the text.
- HelmRelease.Tables.InitBoardRelease: the number of a stored release is new, and what Helm itself keeps of a release is not modelled.
- The library's line-length limit in the Dockerfile scan, the validators and trims before a Dockerfile is printed, the template engine itself and the rewriting of COPY commands are not modelled.
- Negative page sizes, other fields of the page and 64-bit overflow of counters are not modelled.
- Node data of the dashboard and the filter that keeps one service's row are not modelled; a service line without a name stops the original and has no counterpart.
- Project membership, port checks, routers, view models, migrations and the user interface would only add simple members.
