# Binport in Dafny

Binport runs tools on remote hosts over SSH. It keeps a content-addressed cache of tools on every host, reaches hosts
behind other hosts through small helper processes, ships toolboxes as OCI images, and keeps its hosts in an SSH
configuration file of its own. This project models the parts of it that hold state or speak a format, and proves what
they promise.

A byte string is a Dafny `string` whose characters are below 256, so one type serves wire bytes and ASCII text. Hashing
is a parameter `hash: string -> string`. Statements about integrity hold for every such function; statements about equal
contents assume only that the finitely many byte strings at hand do not collide. The network, other processes and the
scheduler are parameters or nondeterministic steps: chunk sizes, completion orders, failed requests and remote answers
are arbitrary.

## Components

- `Json`, `Fields`, `Wire`, `Streams`: JSON as serde_json prints and reads it (sections 4 and 7 of RFC 8259 concretely),
  the exec-hop request and its length-prefixed frame, and the readers and feeders over byte streams.
- `Delivery`, `DeliveryRuns`, `EarlyEnds`, `ExecHop`, `Route`: the chain of helpers as a state machine over client writes,
  header reads, bounded 8-slot channels, and deaths of the client and of helpers at any time; its safety, progress and
  termination over every run; short runs with a death; and the route of a stored host.
- `Capture`, `ReturnPath`, `ReturnLoss`: the loop that collects a command's output; the way back of output and exit status
  through any number of helpers, the last of which feeds the command at the same time; and for which commands the client can
  rely on the answer.
- `Shell`: the command lines binport prints and a lexer for them after sections 2.2.1 to 2.2.3 and 2.3 of the Shell
  Command Language chapter of POSIX.1-2017.
- `ConfigText`, `Hosts`, `HostStore`, `HostFile`, `SshConfig`: the managed host file, its printer, its two parsers, and
  the add and remove commands as a map.
- `FileTree`, `ToolPaths`: a directory tree under `mkdir` and `open`, and the place a tool's name leads to in it, `..`,
  `.`, absolute names and trailing slashes included.
- `OciDocs`, `ToolboxLock`, `Oci`, `OciRoundTrip`, `OciIntegrity`: the documents of the OCI Image Format Specification and
  the lock file, packing, and the loops of unpacking on a tree.
- `OciSettle`, `OciContainment`, `OciArrival`, `OciFailure`, `OciDisk`, `Repack`: an unpack from beginning to end on the tree of a whole
  machine: how it ends, what it changes when it fails, what arrives when it does not, and packing the result again.
  `OciExamples` has toolboxes for which the conditions found there matter.
- `RegistryPush`, `PullDisk`, `RegistryPull`, `PullTheorems`, `Shipping`, `ShipToolbox`: push and pull of the OCI
  Distribution Specification over a failing registry and a cache with inodes, and all four commands in a row.
- `ProbeStream`, `ToolCache`: a tool's output on its way to the terminal, and the remote tool cache.
- `Watch`: the watch loop and its log.
- `Fabric`: subnet masks (section 3.1 of RFC 4632), the join of RDMA endpoints, and its summary.
- `Wrappers`, `Text`: result types, decimal numbers, chunks.

## What does not hold as one would expect

Each comes with a lemma at an input that fails, and with the condition under which the property does hold, for all inputs.

- A command can be told that its input has ended before it has. For a counted request that takes the death of its own helper
  (`DeliveryRuns.EveryRunIsSafe`, `EarlyEnds.DeadHelperEndsEarly`); an interactive one ends early with anybody on the way
  (`EarlyEnds.DeadTerminalEndsEarly`). When somebody further up dies, the counted feeder gives up and leaves the command
  without an end (`EarlyEnds.DeadClientIsNoticed`), exactly when bytes are owed (`Delivery.ShortInputExactly`).
- The client does not always get the command's answer: a helper whose feeder still has input when the connection ends gives up
  with status 1 before it drains its channels (`src/bin/binport-hop.rs:116-122`). `ReturnLoss.AnsweredExactly` says for which
  commands every schedule is answered in full, `ReturnPath.Returned` what the client has in either case, and
  `ReturnLoss.OutputLost` is a run in which a command's only byte is lost.
- A toolbox that packs need not unpack, even when no name repeats: the name check looks at the last component of a name
  (`src/lib.rs:73-92`), the whole name is joined to a directory (`src/oci.rs:211-219`). A tool `rg/` has no file to be
  (`OciExamples.SlashedPacks`), `rg` and `rg/x` are in each other's way (`OciExamples.FolderPacks`), `a/../rg` writes over `rg`
  (`OciExamples.OverwritingPacks`). `OciArrival.PackedOutcome` and `OciArrival.BelowReceives` say exactly when one unpacks,
  `OciArrival.ArrivedExact` exactly when its contents arrive, and names without slashes need no care
  (`OciArrival.BareToolbox`).
- An unpack that fails may have changed the project: a name that climbs out of the staging directory is written outside it
  while later blobs are still unverified (`OciContainment.EscapingTool`, `OciExamples.EscapingPacks`).
  `OciContainment.FailureLeaves` says exactly when a failed run leaves everything else as it was, by its requests,
  `OciFailure.FailureLeavesNames` by the names and the tree before, `OciContainment.LeavesExactly` which names climb out.
  After the move one thing can fail, the project lock, and the toolbox has been replaced by then
  (`OciContainment.LateFailure`).
- Nothing unpacks into a project path that is a plain file (`OciExamples.FileProject`, `OciArrival.BelowReceives`).
- The lock file an unpack writes is true of the files exactly when tools that lead to one place have one hash
  (`OciIntegrity.LockHolds`); with `rg` and `a/../rg` it is not (`OciExamples.OverwritingLock`).
- A pull through the cache is not always a pull without it. Where hard links work, a non-empty blob whose digest comes up
  exactly twice ends empty in the layout and in the cache, because the second time the copy truncates the file it is about
  to read (`src/registry.rs:638-646`). `PullTheorems.RefinesUncached` says exactly when a pull is right;
  `Shipping.SharedScript` is the plainest example, a toolbox with one script for both platforms.
- The host file does not read back every validated entry: the validator looks at ASCII white space, the parser trims Unicode
  white space. `HostStore.RoundTripExactly` gives the exact condition, `HostStore.UntrimmedExample` a host name ending in
  U+00A0, and the file the add and remove commands leave reads back as their map exactly as far
  (`HostFile.CommandsRefineMap`).
- A host is not always given its own settings by the second parser, which splits names at Unicode white space: exactly when
  its name is its own (`SshConfig.OwnSettingsExactly`). A host with an em space in its name is given none, and takes part in
  another one's (`SshConfig.SpacedExample`).
- A host that warms need not run: the warm command accepts a system name in any case, the probe script only `Linux`.
  `ToolCache.PlatformsAgree` says exactly where the two agree, `ToolCache.WarmThenRun` exactly when a run then succeeds;
  `ToolCache.LenientUname` is an example.
- Packing does not refuse two tools of one name and platform, unpacking does (`OciRoundTrip.PackUnpack`,
  `OciExamples.RepeatedPacks`).

## Model

| member | source | states |
|---|---|---|
| `Json.AsciiIsUtf8` | src/hop.rs:254-268 | ASCII text is UTF-8, so the header keys are Rust strings |
| `Json.EscapeRoundTrip` | src/hop.rs:270-289 | escaping a string and reading the escapes up to the closing quote gives the string back and leaves what follows |
| `Json.StringRoundTrip` | src/hop.rs:270-289 | a printed JSON string reads back, with any text behind it |
| `Json.NumberRoundTrip` | src/hop.rs:270-289 | a printed unsigned number reads back when no digit follows |
| `Json.ValueRoundTrip` | src/oci.rs:98-120 | any JSON value printed compactly or pretty, from any indentation, is read back by the grammar and leaves what follows |
| `Json.PrintParse` | src/oci.rs:98-124 | a whole printed document parses to the value it was printed from, in both styles |
| `Json.WithinExactly` | src/oci.rs:294-304 | the reader that counts how deep it may still go reads, on any text, what the grammar reads and nests no deeper |
| `Json.ReadValueExactly` | src/oci.rs:294-304 | so a printed value is read back exactly when it is nested at most 127 deep |
| `Wire.HopRoundTrip` | src/hop.rs:37-45 | one hop target survives its JSON form |
| `Wire.RequestRoundTrip` | src/hop.rs:21-44 | a request survives its JSON form, optional fields present or not |
| `Wire.HeaderRoundTrip` | src/hop.rs:254-289 | parsing the header text of a request of this protocol version gives that request |
| `Wire.Be32RoundTrip` | src/hop.rs:301-314 | a 32-bit length survives its big-endian bytes |
| `Wire.FrameRoundTrip` | src/hop.rs:203-218 | reading a frame followed by any bytes gives the request and stops exactly behind the header |
| `Wire.RequestFrameRoundTrip` | src/hop.rs:137-201 | reading an encoded request followed by any bytes gives request and payload and leaves the rest |
| `Wire.EncodeAccepts` | src/hop.rs:270-320 | encoding succeeds exactly for the right version, the declared payload length and a header of at most 256 KiB |
| `Wire.FramesPrefixFree` | src/hop.rs:316-320 | no encoded request is a proper prefix of another |
| `Wire.HeaderSize` | src/hop.rs:270-289 | the exact length of a header from the lengths of its parts |
| `Wire.PeelShrinks` | src/bin/binport-hop.rs:133-138 | replacing target, port and password by the head of the remaining hops, and dropping it, makes the header strictly shorter |
| `Wire.LaterHopsFit` | src/bin/binport-hop.rs:128-141 | a request the client can encode never fails the size check at a later hop |
| `Streams.ByteSource.Read` | src/bin/binport-hop.rs:66-89 | a read returns some of the unread bytes, none only at the end |
| `Streams.ByteSource.ReadExact` | src/hop.rs:239-252 | an exact read returns just the bytes asked for, or fails at the end of the stream |
| `Streams.ReadRequestHeader` | src/hop.rs:203-218 | over any chunking the header reader agrees with decoding the whole stream and leaves exactly the rest |
| `Streams.ReadRequest` | src/hop.rs:168-201 | the blocking reader agrees with decoding header and payload from the whole stream |
| `Streams.FeedCounted` | src/bin/binport-hop.rs:66-91 | the counted feeder forwards exactly the declared bytes and its end mark, unless its input has fewer or its channel closes before it has taken them |
| `Streams.FeedAll` | src/bin/binport-hop.rs:203-223 | the relay's feeder sends the new header, then all of standard input, then its end mark, unless its channel closes before |
| `Delivery.StepInv` | src/bin/binport-hop.rs:18-258 | every step of every schedule keeps the invariant, whoever dies: what is delivered, queued, unread or held by the dead adds up to the frame and the input at each link; a helper stops only when it dies or its input was cut short upstream |
| `Delivery.ShortInputExactly` | src/bin/binport-hop.rs:66-89 | the counted feeder finds its input short exactly when it has read to the end of it and the client or a helper before it died owing bytes |
| `Delivery.ClosedUpstream` | src/bin/binport-hop.rs:66-91 | at the end of any process's input something is missing exactly when somebody before it died owing it |
| `Delivery.FailedStep` | src/bin/binport-hop.rs:43-258 | in any step a helper that has failed stays failed and takes no part, and at most the helper that takes the step fails |
| `DeliveryRuns.EveryRunIsSafe` | src/bin/binport-hop.rs:18-258 | in every run, whoever dies: connections are a prefix of the route, channels hold at most 8 chunks, every failure goes back to a death no further along, the command runs only behind the last hop and has a prefix of the input; at its end of file that is all of it exactly when nobody died owing it bytes, and for a counted request whenever its own helper lives |
| `DeliveryRuns.FailedStays` | src/bin/binport-hop.rs:43-258 | over any run, from any state, who has failed stays failed, and who fails took a step |
| `DeliveryRuns.Progress` | src/bin/binport-hop.rs:66-258 | whoever is dead, a run has a step until the command has the end of its input, the newest helper died over its header, or the counted feeder has given up |
| `DeliveryRuns.RunWork` | src/bin/binport-hop.rs:128-141 | every step, deaths included, lightens the load, so runs are bounded |
| `DeliveryRuns.EndToEnd` | src/hop.rs:586-622 | every run ends, in one of those three ways; without deaths one that cannot go on has connected in exactly route order and given the command the client's input followed by end of file |
| `DeliveryRuns.PayloadIsRequest` | src/hop.rs:603-622 | the bytes the client sends are the encoded request |
| `EarlyEnds.DeadHelperEndsEarly` | src/bin/binport-hop.rs:11-19 | for any one-hop request: the helper dies once the command runs, and the command is told its input has ended, having seen none of it |
| `EarlyEnds.DeadClientIsNoticed` | src/bin/binport-hop.rs:76-82 | for any counted one-hop request with input: the client dies behind the header, and the command is never told that this was all |
| `EarlyEnds.DeadTerminalEndsEarly` | src/bin/binport-hop.rs:206-222 | for any interactive one-hop request: the client dies behind the header, and the command is told its input has ended |
| `ExecHop.ClientRoute` | src/hop.rs:586-615 | the client's request addresses the first hop and carries the others in order, with command and payload length |
| `ExecHop.PreparePayload` | src/hop.rs:484-622 | the payload prepared for a stored host follows that host's parent walk, each hop with its own address, port and password; there is none exactly when no walk leads to a request that can be sent |
| `ExecHop.OneRoute` | src/hop.rs:484-522 | there is at most one such walk, and one route |
| `ExecHop.DeliveredToHost` | src/hop.rs:524-622 | from the stored host to the running command: the connections made are the hosts between entry and target, and the command there reads the client's input |
| `Capture.CollectOutput` | src/ssh.rs:492-526 | under any interleaving of completion and output the select and drain loop loses and reorders nothing |
| `ReturnPath.StepInv` | src/bin/binport-hop.rs:66-126 | every step of every schedule keeps the invariant: what the client has, what is on its way and what is not written yet are the command's output; what the command has and what the feeder holds are its input |
| `ReturnPath.Returned` | src/bin/binport-hop.rs:66-126 | when the client is done it has every byte of both streams in order and the command's status, at most 255, if the feeder had handed over its last chunk when the command's connection ended; if it had not, the beginning of the output, the complaint, and status 1 |
| `ReturnLoss.AnsweredExactly` | src/bin/binport-hop.rs:66-126 | every schedule answers the client in full exactly when the command has no input or ends only after the end of it |
| `ReturnLoss.OutputLost` | src/bin/binport-hop.rs:103-122 | a command that says one byte, succeeds and does not read: the client has nothing of it and status 1 |
| `ReturnPath.SoFar` | src/bin/binport-hop.rs:66-126 | at any time before, what the client has is the beginning of the output, what the command has the beginning of its input, and channels hold at most 8 chunks |
| `ReturnPath.Progress` | src/bin/binport-hop.rs:66-126 | as long as the client is not done some step can be taken, the last helper's wait for its feeder included |
| `ReturnPath.ReturnsAtLast` | src/bin/binport-hop.rs:197-258 | schedules are bounded by the work at the start, and one that cannot go on is done |
| `Route.ResolveHostChain` | src/hop.rs:484-522 | terminates on every host map; succeeds exactly when the walk leaves exec-hop hosts after at most 4 distinct ones, with the parent-linked hops in connection order; each error says what is wrong with the walk |
| `Route.RejectedIsNotAccepted` | src/hop.rs:484-522 | no host is both accepted and rejected |
| `Route.LeavingIsAcyclic` | src/hop.rs:489-495 | a walk that leaves the exec-hop hosts meets none of them twice |
| `Route.ResolveStored` | src/hop.rs:484-522 | for stored hosts, resolution succeeds exactly when the walk leaves within 4 hops, and the route ends at the host asked for |
| `Route.RouteLabel` | src/cmd/host.rs:968-999 | for every accepted host the label shows the entry followed by all hops but the last; the other kinds of host have their own labels |
| `Shell.QuotedWord` | src/lib.rs:100-105 | a quoted argument is lexed as one word of its own characters |
| `Shell.RemotePathWord` | src/lib.rs:156-163 | a quoted remote path is lexed as one word, `$HOME` expanding and nothing else |
| `Shell.ExecuteCommand` | src/lib.rs:119-129 | the loop prints the script, the file and every argument |
| `Shell.ExecuteWords` | src/lib.rs:119-129 | the shell reads the execute command as `sh`, `-c`, the script, `sh`, the file and the arguments unchanged |
| `Shell.ProbeExecuteCommand` | src/lib.rs:131-154 | the probe command is the probe script with both files and every argument |
| `Shell.ProbeWords` | src/lib.rs:131-154 | the shell reads the probe command as its script, the two files and the arguments unchanged |
| `Shell.BareToolName` | src/lib.rs:73-92 | a name is its own safe tool name exactly when its characters are safe and it is not a dot name |
| `Shell.CachePath` | src/lib.rs:94-98 | for hex hashes and safe names the cache path is one word: the home directory and the literal rest |
| `Shell.ExecuteRuns` | src/lib.rs:119-129 | running the command executes the expanded file with exactly the arguments |
| `Shell.NestedRecovers` | src/lib.rs:100-129 | a command that is an argument of another command, and so on at any depth, is recovered by the shells that run them |
| `ConfigText.LinesUnlines` | src/host.rs:119-130 | joined lines split back into the same lines |
| `ConfigText.SettingDirective` | src/host.rs:123-135 | a rendered setting line reads back as its keyword and value |
| `ConfigText.PortRoundTrip` | src/host.rs:145-152 | a printed port parses to itself and is a clean value |
| `Hosts.Render` | src/host.rs:187-224 | the printing loop produces the declared text |
| `Hosts.Parse` | src/host.rs:119-185 | the line loop computes the declared parse, errors included |
| `Hosts.SettingsRoundTrip` | src/host.rs:119-224 | applying an entry's settings to a blank entry gives the entry |
| `HostStore.ParseRendered` | src/host.rs:119-224 | parsing the rendered file gives the entries back |
| `HostStore.ParsedIsGood` | src/host.rs:119-185 | whatever parses is validated and trimmed |
| `HostStore.RoundTripExactly` | src/host.rs:187-349 | for validated entries, the file reads back exactly when no value has Unicode white space at its ends |
| `HostStore.UntrimmedExample` | src/host.rs:337-349 | a validated entry that does not read back |
| `HostFile.EnsureIncludeOnce` | src/host.rs:352-370 | the include line is added at most once and the old text is kept |
| `HostFile.IncludeKeepsAliases` | src/host.rs:108-117 | adding the include changes no alias check |
| `HostFile.HostFiles.Add` | src/host.rs:46-89 | adding has the specified outcome and changes no file when refused |
| `HostFile.HostFiles.Remove` | src/host.rs:91-106 | removing has the specified outcome and changes no file on an error |
| `HostFile.AddOutcome` | src/host.rs:46-75 | exactly when an entry is added, and which conflict is reported otherwise |
| `HostFile.AddRefines` | src/host.rs:46-89 | an add that goes through makes the file the rendering of the map with the entry, and leaves the main file with the include; the file reads back as that map exactly when the entry has no white space at the ends of its values |
| `HostFile.RemoveRefines` | src/host.rs:91-106 | removing is map deletion, and reports whether the name was there |
| `HostFile.CommandsRefineMap` | src/host.rs:46-106 | any sequence of commands keeps the file the rendering of a map under insert and delete, and reading back as that map, all along, exactly when every entry it takes has no white space at the ends of its values |
| `HostFile.OneFile` | src/host.rs:76-89 | a map has one managed file, whatever the order the entries came in |
| `SshConfig.ApplySshConfig` | src/ssh.rs:1102-1188 | the flag-driven loop takes, for each key, the first usable value among the active blocks |
| `SshConfig.ScanSettingStep` | src/ssh.rs:1128-1175 | one line of the loop changes what was found exactly as noting it would |
| `SshConfig.ActiveRendered` | src/ssh.rs:1102-1127 | in the rendered file the lines active for a host are the settings of the entries that have it as a word of their name: its own alone exactly when the name is its own |
| `SshConfig.OwnSettingsExactly` | src/ssh.rs:1102-1127 | a stored host is given its own settings exactly when its name is one word and no other entry has that word |
| `SshConfig.SpacedExample` | src/host.rs:337-349 | a validated host with an em space in its name is given no settings, and the host named like its second half those of both |
| `SshConfig.PlainNamesAreOwn` | src/host.rs:337-349 | names without any white space, all different, are their own |
| `SshConfig.ParsersAgree` | src/cmd/host.rs:463-479 | on the rendered file the second parser gives each host whose name is its own its name, user, port, jump (but for `none`) and the bastion the host command builds |
| `OciDocs.DescriptorRoundTrip` | src/oci.rs:33-44 | both readers give a written descriptor back, the registry client without annotations |
| `OciDocs.IndexRoundTrip` | src/oci.rs:16-22 | both readers give a written index back |
| `OciDocs.ManifestRoundTrip` | src/oci.rs:24-31 | both readers give a written manifest back |
| `OciDocs.ConfigRoundTrip` | src/oci.rs:51-57 | a written toolbox configuration reads back with its project lock |
| `OciDocs.IndexBytesRoundTrip` | src/oci.rs:118-124 | the pretty bytes of an index read back in both clients |
| `OciDocs.ManifestBytesRoundTrip` | src/oci.rs:107-113 | the compact bytes of a manifest read back in both clients |
| `Oci.ReadBlob` | src/oci.rs:271-292 | a blob that is read matches the digest and size of its descriptor |
| `Oci.PutAllExact` | src/oci.rs:256-269 | without collisions a store written name by name maps exactly the hashes written to the bytes written |
| `Oci.PlatformNames` | src/oci.rs:314-333 | the platform conversions undo each other and the names differ |
| `OciRoundTrip.PackExact` | src/oci.rs:75-123 | packing succeeds exactly when every tool of a known platform checks out; then blobs and manifests are the ones listed |
| `OciRoundTrip.UnpackLayersExact` | src/oci.rs:187-225 | the layers of a platform unpack exactly when no name repeats and the file system takes every one, giving the tools in order |
| `OciRoundTrip.MarkerReads` | src/oci.rs:294-304 | the layout marker written by packing is the one unpacking accepts |
| `OciRoundTrip.PackUnpack` | src/oci.rs:59-229 | from any store holding what was packed, the tools are staged exactly when no name repeats within a platform and no path is asked for both as a file and as a directory; then names, versions, hashes and project lock are back, grouped by platform in order, and the tree is the one the names ask for |
| `OciIntegrity.UnpackSound` | src/oci.rs:154-230 | with no assumption on the hash: whatever unpacks was verified down to the last layer, and the lock file is the one the manifests list, its hashes those of the bytes written |
| `OciIntegrity.RunFollows` | src/oci.rs:154-229 | whatever stops a run, and wherever, the tree is what the tools it took on ask for |
| `OciIntegrity.LockHolds` | src/oci.rs:211-230 | the lock file is true of the staged files exactly when tools that lead to one place have one hash |
| `OciExamples.OverwritingLock` | src/oci.rs:211-227 | after `rg` and `a/../rg` the lock file has the first one's hash and its path the second one's bytes |
| `FileTree.PerformExact` | src/oci.rs:211-219 | requests to a directory tree are all met exactly when they are consistent with one another and with the tree, and then every path is as they leave it |
| `FileTree.OutsideExact` | src/oci.rs:144-252 | whatever stops the requests, nothing outside a directory changes exactly when those met stay inside or change nothing |
| `ToolPaths.FileNameIsLast` | src/lib.rs:73-92 | the file name that is checked is the last component of the path that is written, unless that leads upwards |
| `ToolPaths.BelowBase` | src/oci.rs:211-217 | a name that stays below leads to the same place under any directory, so a staged tool is found at its recorded path |
| `ToolboxLock.LockRoundTrip` | src/oci.rs:230-233 | the lock file reads back as it was written |
| `OciSettle.SettledExact` | src/oci.rs:230-252 | the move into the project succeeds exactly when its requests can be met where staging left off, and leaves every path as installed |
| `OciContainment.LeavesExactly` | src/oci.rs:204-217 | a relative name leaves the staging directory exactly when its components climb out of it |
| `OciContainment.BelowStays` | src/oci.rs:204-217 | a name that stays below the toolbox directory does not leave the staging directory |
| `OciContainment.FailureLeaves` | src/oci.rs:144-254 | a run that fails before the move, at any point and on any layout, leaves everything outside the staging directory as it was exactly when each request it got through stays inside or changes nothing |
| `OciContainment.StayingNames` | src/oci.rs:144-254 | so it is when no name it met leaves the staging directory |
| `OciFailure.FailureLeavesNames` | src/oci.rs:144-254 | a run that its layout made fail, at any point, leaves everything else as it was exactly when the tools taken on find outside the staging directory only what they would put there |
| `OciContainment.EscapingTool` | src/oci.rs:204-219 | a layout whose first tool climbs out and whose second is missing ends in an error with the project's own tool replaced |
| `OciExamples.EscapingPacks` | src/oci.rs:204-219 | a packed toolbox of such a tool and any other one, less the second one's blob, is a case of it |
| `OciContainment.LateFailure` | src/oci.rs:234-254 | after the move an unpack fails exactly when a directory has the project lock's name, and everything else has been installed by then |
| `OciArrival.PackedOutcome` | src/oci.rs:59-254 | pack, then unpack on any machine: it succeeds exactly when no name repeats within a platform and the tree receives the toolbox, and then it is installed, its lock listing the packed tools |
| `OciArrival.BelowReceives` | src/oci.rs:134-254 | for names that stay below the toolbox directory a tree receives a toolbox exactly when every name can be written, no tool's file is where a directory is needed, the project is a directory, and nothing is in the way of the staging directory, the toolbox and the lock files |
| `OciArrival.BoxArrives` | src/oci.rs:234-246 | then the toolbox directory holds each tool's file at its place, the directories on the way, and nothing else |
| `OciArrival.RestUntouched` | src/oci.rs:134-254 | and every path apart from the toolbox, its lock file, the project lock and the staging directory is as it was |
| `OciArrival.ToolRead` | src/oci.rs:211-227 | a tool is read back at its recorded path as the last tool that leads to the same place |
| `OciArrival.ArrivedExact` | src/oci.rs:211-227 | a toolbox has arrived, contents and all, exactly when tools that end in one file have the same contents |
| `OciArrival.BareToolbox` | src/oci.rs:59-254 | with names without slashes a toolbox unpacks wherever the project is ready for one exactly when no name repeats, and all of it arrives |
| `OciArrival.SlashedTool` | src/lib.rs:73-92 | a tool `rg/` passes the check, and no tree receives it |
| `OciArrival.FileAndFolder` | src/oci.rs:218-219 | nor `rg` and `rg/x` on one platform |
| `OciArrival.WrittenOver` | src/oci.rs:211-219 | `rg` and `a/../rg` unpack, and arrive only if they are the same file |
| `OciExamples.SlashedPacks` | src/oci.rs:93-119 | a toolbox of `rg/` and any other tool packs and repeats no name, and no machine receives it |
| `OciExamples.FolderPacks` | src/oci.rs:93-119 | nor the one of `rg` and `rg/x`, which packs as well |
| `OciExamples.OverwritingPacks` | src/oci.rs:211-227 | the one of `rg` and `a/../rg` packs, is received wherever a project is ready, and its contents agree only if they are the same |
| `OciExamples.RepeatedPacks` | src/oci.rs:205-210 | two tools `rg` for one platform pack, and the layout unpacks nowhere |
| `OciExamples.FileProject` | src/oci.rs:144-148 | nothing unpacks into a project path that is a plain file |
| `OciDisk.Layout.WriteBlob` | src/oci.rs:256-269 | a blob is written only under a new name |
| `OciDisk.Layout.PackLayers` | src/oci.rs:91-106 | the tool loop checks name, file and checksum before each blob |
| `OciDisk.Root.Pack` | src/oci.rs:59-125 | nothing is written without a lock file or over an existing layout; a pack that succeeds has written the listed blobs and index |
| `OciDisk.Root.StageLayer` | src/oci.rs:195-228 | one layer on the real tree: type, annotations, name, identity, directories, then the verified blob, then the file; the tree is left as far as it got |
| `OciDisk.Root.StageManifests` | src/oci.rs:154-229 | the manifest loop leaves tools, project lock and tree as the specification says, an error at any point included |
| `OciDisk.Root.Settle` | src/oci.rs:230-252 | the lock file, the move and the project lock leave the tree as the specification says |
| `OciDisk.Root.Unpack` | src/oci.rs:134-254 | on any layout the command ends as specified and leaves every path of the machine as specified, which the lemmas of `OciContainment` and `OciArrival` are about |
| `OciDisk.PackThenUnpack` | src/oci.rs:59-254 | packing one project and unpacking into another succeeds exactly when no name repeats and the other receives the toolbox; its lock then lists the same tools, and the contents have arrived exactly when tools that end in one file agree |
| `Repack.SameImage` | src/oci.rs:59-132 | two projects with the same tools and contents, wherever they keep them, pack to the same blobs and the same index |
| `Repack.RoundTrip` | src/oci.rs:59-254 | pack, unpack elsewhere and pack again: the layout is the same, byte for byte |
| `RegistryPush.CountSnoc` | src/registry.rs:203-211 | an occurrence adds to the count of missing digests exactly when its digest was nowhere yet |
| `RegistryPush.Registry.UploadBlob` | src/registry.rs:539-578 | an upload sends only verified bytes, in two requests, and may be lost after it took effect |
| `RegistryPush.PushBlobs` | src/registry.rs:203-211 | the blob loop sends each missing digest once and finds the rest |
| `RegistryPush.PushManifest` | src/registry.rs:199-220 | a manifest goes in only after its blobs, whatever fails |
| `RegistryPush.PushLayout` | src/registry.rs:163-228 | over any failures: a consistent registry stays consistent, the reference moves only once everything is there; a reported push accounts for every occurrence; pushing what is there writes nothing |
| `RegistryPush.PushTwice` | src/registry.rs:179-196 | pushing again writes nothing and reports the number of distinct digests |
| `PullDisk.StepExact` | src/registry.rs:614-646 | storing and fetching change one name only, as its slot says |
| `PullDisk.RunExact` | src/registry.rs:288-322 | after any run every name is where its own events take it |
| `PullDisk.SlotExact` | src/registry.rs:623-646 | after any number of events a name holds its bytes in cache and layout, or was emptied by the second of them and not fetched again |
| `RegistryPull.LocalIndexIsIndex` | src/registry.rs:323-329 | the index a pull writes is byte for byte the packed one when the descriptors have no annotations |
| `RegistryPull.PullStore.MaterializeBlob` | src/registry.rs:638-646 | a hard link where the name is new and links work, else a truncating copy |
| `RegistryPull.PullStore.StoreManifest` | src/registry.rs:614-621 | a cached file is trusted, a missing one written |
| `RegistryPull.PullStore.UseCached` | src/registry.rs:623-636 | a damaged cache entry is removed, a good one used |
| `RegistryPull.PullStore.Download` | src/registry.rs:487-524 | a download in any chunks keeps the cache unless the whole body matches |
| `RegistryPull.PullStore.PullLayout` | src/registry.rs:230-335 | for any registry and cache: stops at the first thing that does not check out, else runs the events of the chosen manifests, with downloaded plus cached the number of descriptors |
| `PullTheorems.PullIntegrity` | src/registry.rs:288-322 | with no assumption on the hash: a name that came up once ends verified in layout and cache |
| `PullTheorems.PullExact` | src/registry.rs:288-322 | every name ends as its bytes in layout and cache, or empty in both |
| `PullTheorems.RefinesUncached` | src/registry.rs:288-322 | the layout is that of a pull with no cache exactly when no name is emptied |
| `PullTheorems.SharedTwice` | src/registry.rs:638-646 | a non-empty digest coming up exactly twice is lost where links work |
| `Shipping.PackedIndex` | src/registry.rs:262-287 | a served packed index is accepted with all its manifests, and rewritten to the same bytes |
| `Shipping.BoxEventsExact` | src/registry.rs:288-322 | the events of a pull are those the packer can foresee |
| `Shipping.UnpackedIsWhole` | src/oci.rs:154-230 | a layout of a packed toolbox that unpacks, into any tree, has no emptied blob |
| `Shipping.PulledUnpacks` | src/registry.rs:230-335 | a pulled toolbox unpacks exactly when no name repeats within a platform, no blob was emptied and the machine receives it, and then is installed as from the layout that was packed |
| `Shipping.SharedScript` | src/registry.rs:638-646 | a toolbox with one non-empty script for both platforms is emptied by a pull where hard links work, so it never ships there |
| `ShipToolbox.PushedServes` | src/registry.rs:197-222 | a registry that took a push serves every byte of it |
| `ShipToolbox.AlreadyComplete` | src/registry.rs:179-196 | a consistent registry whose reference is the packed index already has everything |
| `ShipToolbox.Ship` | src/registry.rs:163-335 | pack, push, pull and unpack in a row install the toolbox exactly when no name repeats within a platform, no blob is emptied and the machine receives it; its contents have arrived exactly when tools that end in one file agree |
| `ProbeStream.ProbeReader.Consume` | src/cmd/remote.rs:712-740 | one chunk keeps protocol line and forwarded streams those of splitting once |
| `ProbeStream.ProbeReader.Drain` | src/cmd/remote.rs:685-710 | for any chunking and interleaving, protocol and forwarded streams equal the batch split |
| `ProbeStream.PrintFleet` | src/cmd/remote.rs:955-971 | per host and stream exactly the lines of the bytes received, a last unfinished one included |
| `ProbeStream.StreamedLines` | src/cmd/remote.rs:519-535 | the printed lines of a host are those of its standard output and of its standard error behind the protocol line |
| `ToolCache.CandidatesAddressed` | src/cmd/runtime.rs:101-125 | every candidate's remote path carries the hash of its contents |
| `ToolCache.WarmHost` | src/cmd/fleet.rs:223-307 | after success every candidate of the platform is cached; cached, uploaded and bytes are those of the state before; failures leave whole files only |
| `ToolCache.WarmTwice` | src/cmd/fleet.rs:267-298 | a second warm-up transfers nothing |
| `ToolCache.ReadsLine` | src/cmd/remote.rs:519-545 | the protocol line of a hit, a miss or a missing tool is read back as that |
| `ToolCache.ReadsUnsupported` | src/cmd/remote.rs:519-535 | an unsupported platform is an error whatever its name |
| `ToolCache.RunRemote` | src/cmd/remote.rs:503-554 | a run that succeeds returns the tool's own outcome, hit or miss, and adds at most its file to the cache |
| `ToolCache.CacheDoesNotShow` | src/cmd/remote.rs:503-554 | with an honest cache hit and miss runs return the same |
| `ToolCache.AddsStayHonest` | src/cmd/fleet.rs:276-298 | uploads keep the cache honest |
| `ToolCache.PlatformsAgree` | src/catalog.rs:33-39 | the warm command takes every platform the probe knows for what it is; where the warm command takes one, the two agree exactly when the host spells system and machine literally |
| `ToolCache.LenientUname` | src/catalog.rs:33-39 | a system name the warm command takes and the probe refuses |
| `ToolCache.WarmThenRun` | src/cmd/fleet.rs:223-307 | after a warm-up a run that succeeds is a hit and sends nothing; on a host that carries out its commands it succeeds exactly when the toolbox has the tool for the platform warmed and the host spells its platform as the probe does |
| `Watch.LogIsFaithful` | src/cmd/watch.rs:180-246 | reading a host's log gives exactly what the loop remembers of it, with and without `--all` |
| `Watch.LogIsOrdered` | src/cmd/watch.rs:180-246 | which event follows which: INITIAL or OFFLINE first, OFFLINE only before RECOVERED, no snapshot shown twice in a row |
| `Watch.InitialComesFirst` | src/cmd/watch.rs:186-188 | INITIAL is only ever the first event |
| `Watch.Observe` | src/cmd/watch.rs:183-246 | one result is printed and remembered as specified; without `--all` something is printed exactly when what is remembered changes, and it tells the new state |
| `Watch.Tick` | src/cmd/watch.rs:158-252 | whatever the finishing order, each host moves on by its own answer, logs its own events, and the targets are back in order |
| `Watch.WatchLoop` | src/cmd/watch.rs:105-266 | over any run, what is remembered and printed of a host depends on its own answers alone; the loop stops when it should, with the last tick's exit code |
| `Fabric.AndHighBits` | src/cmd/network.rs:451-461 | masking with the upper bits leaves the multiple of a power of two below |
| `Fabric.MaskExact` | src/cmd/network.rs:455-459 | the shifted 32-bit mask is what its prefix says |
| `Fabric.SubnetIsQuotient` | src/cmd/network.rs:451-461 | same subnet means equal prefixes of at most 32 and equal leading bits |
| `Fabric.SubnetsPartition` | src/cmd/network.rs:451-461 | same subnet is an equivalence on valid prefixes |
| `Fabric.ProductCount` | src/cmd/network.rs:409-420 | the join holds each pair of one subnet as often as its ends occur, and no other |
| `Fabric.SortByInterface` | src/cmd/network.rs:421-423 | the sort is by interface and stable |
| `Fabric.PairFabrics` | src/cmd/network.rs:409-423 | the pairs are a stable sorting of the join |
| `Fabric.FastestFabric` | src/cmd/network.rs:425-434 | exactly the pairs of the largest rate are kept, as often as they were there |
| `Fabric.SummarizeFabrics` | src/cmd/network.rs:436-449 | the text lists every rate with its count, largest first |
| `Fabric.SummaryLeads` | src/cmd/network.rs:425-449 | the summary begins with the size and rate of the fastest selection |
| `Fabric.Discover` | src/cmd/network.rs:409-449 | join, selection and summary of two hosts agree with one another |

## Left out

- SSH, TCP, TLS, HTTP and token exchange: library calls; only what they deliver is modelled, as chunks, answers and failures.
- `Destination::resolve` beyond `apply_ssh_config`, host selection by group, identities and authentication methods.
- Installing the helper on the way (`install_self`, `fetch_helper`): an upload like any other; the probe of the entry host's platform is not repeated here.
- Interactive sessions: `run_tty` and raw terminals. The request's `tty` flag and its unbounded input are in the delivery model.
- `RelayRequest`, `run_relay` and `run_connect`: the same header codec and feeders with another record.
- The way back: connections that break under a running command, failing writes to standard output, and the terminal case. The last helper's input is all there; a death upstream of it is in `Delivery` only.
- `Delivery`: a process that dies is noticed by the next one, at any later time, as the end of its input; nobody is made to die by it. That a feeder's end mark, and not the end of the feeder, ends the command's input is taken from the SSH library, which is not part of this model.
- Passwords come as a map; reading the password files and their errors is not modelled.
- JSON: signs, fractions and exponents of numbers, records written as arrays, and the 64-bit bound of sizes and the 32-bit bound of versions in OCI documents.
- The project lock inside a toolbox is carried as a JSON object; its own fields are not read, nor its format checked, and it is taken to be as shallow as they are.
- The directory tree: a project path that does not exist (the command resolves it first), symbolic links, permissions, limits on the length of names, and a disk that is full or fails. Directories removed and renamed as a whole count as one step each.
- The OCI layout is an object of its own: where it is kept on a tree, and a name that climbs out and leads into it, are not modelled.
- OciArrival.ArrivedExact: stated for names that stay below the toolbox directory; a name that climbs out of it leads elsewhere once the staging directory has been moved. What such a run leaves is in `OciArrival.PackedOutcome`, which has no such restriction.
- Json.ReadValueExactly: the limit is on values that are built; serde_json skips unknown fields of a record without one.
- Progress bars, tables, prompts, file permissions, temporary file names and atomic replacement of the host file.
- Pushing an index whose manifests are indexes themselves: the nested ones are not followed, and consistency is stated for configurations, layers and the tagged index.
- Repeated reads of one name from the registry during one pull are taken to give the same answer.
- The remote scripts under a broken connection: an upload that reports success has installed the whole file, one that fails has installed nothing.
- `uname` output is taken as its two lines; tools are functions of their contents and arguments and do not touch the cache.
- Invalid UTF-8 in tool output: the lossy conversion before printing is left out, lines are compared as bytes.
- Watch: connecting, reconnecting and the concurrency limit only decide the answers and the finishing order, which are arbitrary here; timestamps are left out.
- RDMA measurement, NUMA binding and the parsing of endpoint lines; `profile.rs`, `environment.rs`, `catalog.rs`, `binfile.rs`, `lockfile.rs`, `bastion.rs` and downloads: mostly validation and I/O.
