# Verified model of the ucisdk crypto gateway

ucisdk is a C11 gateway. A client builds one-line JSON requests; a server parses them and queues them
for a pool of workers; each worker leases a device from a shared registry, translates the call for the
device's back end and dispatches it to an adapter. This project models the parts in which the real
properties lie and proves them for all inputs and all runs:

- **Registry and leases** (`Registry.dfy`, `Leases.dfy`): the scan loops over the device array, the
  choice as a global optimum, and a transition system of any number of workers in which every lease
  counter equals the number of its holders and every answer is the specified one for the tables that the
  steps of its request met. The counters hold in all runs of `n` workers exactly when no request can be
  given a device behind another with its id while fewer than `n` leases are out.
- **Queue and connections** (`JobQueue.dfy`, `Monitor.dfy`, `Server.dfy`): the ring buffer refines a
  sequence; the monitor, with spurious wakeups and barging, loses no wakeup; acceptor and workers on
  top of that monitor close every accepted connection exactly once, if there is a worker at all.
- **Wire formats** (`Json.dfy`, `RequestCodec.dfy`, `RequestParser.dfy`, `FieldFinder.dfy`,
  `RequestRoundTrip.dfy`, `RoundTripLimits.dfy`, `Framing.dfy`, `KeyRef.dfy`, `Route.dfy`,
  `SequenceText.dfy`): the client's printers and the server's `strstr`-based readers undo each other, and
  exactly where they do not. Two readers written apart from the printers say what the bytes mean to anybody
  else: a JSON reader after RFC 8259 (`JsonReader.dfy`, `WireFormat.dfy`) and positional numerals (`Numerals.dfy`).
- **Execution** (`Names.dfy`, `Config.dfy`, `Translator.dfy`, `Scheduler.dfy`, `Delivery.dfy`,
  `EndToEnd.dfy`): name tables and normal forms, capability lists, translation, single requests and
  sequences among other workers, which answers are sent, and key binding from the client's key reference
  to the leased device. `Choice.dfy`, `Results.dfy`, `CallNames.dfy` and `Answers.dfy` state in plain terms when
  a step gets a device and which, what it results in, and what the reply says.
- **Vendor adapter** (`HexCodec.dfy`, `SkfSession.dfy`): the hexadecimal codec, and the handle lifecycle
  of the seven handlers for every pattern of vendor outcomes.

A C string is a Dafny `string` without its NUL, a `char` is a byte, and a buffer that C code fills is an
`array<char>` wherever the code writes it in place. `snprintf("%s")` is `Clip`, `strtok_r` is `Tokens`,
`strcmp(a, b) < 0` is `Less`. Methods that loop or write buffers follow the C code and are proved equal
to functions on values; the lemmas are about those functions. A `key_source_mask` is the set of its bit
numbers. Connections are numbered in the order in which they are accepted, since descriptors are reused.

Every step of a request leases from the table as it is at that moment (`Moment`): between the critical
sections other workers change the counters. The methods of `Scheduler.dfy` let them move anywhere there
(`OthersMove`), `Leases.dfy` interleaves them, and both are tied to the same functions on values.

## What the proofs found

- `registry_release` finds its device by id: with a shadowed id the wrong counter is decremented.
  `ConservedIffUnexposed` gives the exact condition for each number of workers (the program runs at most
  four), `ConservedIffNoneShadowed` the one for all numbers; distinct ids suffice (`DistinctIdsSuffice`),
  but `registry_add` does not demand them.
- The field finder takes a value that equals a field's name for that field, if it stands before it, whether
  the field is present or not, and it does not undo escapes. `LookupExact` says when one field is read as it
  is, `RoundTripExactly` when a whole request is, `PayloadIsReplaced` is a request whose payload is not,
  and `RecoveredExactly` is about values that need an escape.
- `load_gateway_settings` (src/server/service/config.c:154-157) demands a pin, and `build_json` never
  sends one, so every request that the client library builds is refused (`BuiltRequestsCarryNoPin`).
- A key id such as `a;device_id=b` binds its key to `b` instead of the key's own device
  (`InjectedDeviceWins`); `KeyRefRoundTrip`, `OwnDeviceIsSeen` and `BoundToOwnDevice` give the exact conditions.
- A hybrid call puts two key references into one field; when they take 256 bytes or more together the
  server drops the field without an error and the request runs unbound (`HybridKeyBinding`), which plain ids
  of 63 bytes reach (`HybridCanOverflow`).
- An answer that takes 2560 bytes or more is not sent, and the client gets nothing (`SentIff`). Errors are
  always sent (`ErrorIsSent`); a sequence of two steps that repeat a payload of 800 bytes never is
  (`LongSequenceIsDropped`).
- The length of a call's output buffer goes out under the same name as that of its auxiliary input, so a
  reader gets it only in a call without such input (`OutputIsRead`).
- A capability list of 512 bytes or more loses its tail without an error (`NothingLostIff`,
  `LongListLosesItsTail`): configs/gm3000-devices.conf declares 38 entries and loads 22.
- An empty algorithm name means `auto` but a blank one is an error (`BlankIsNotEmpty`).
- A sequence is answered without running anything exactly when its first 1023 bytes are `>` only
  (`AnsweredWithoutStep`).
- A declared capability is not enough for a step to run: `StepSucceedsIffRule` gives the exact condition,
  and `softlib` declares SM3 hashing without meeting it (`SoftlibCannotHash`).
- With no worker, queued connections are never closed (`NoWorkersLeak`).
- A missing required symbol leaves the vendor library open, and a closing function that is missing
  leaves its handle open: `Ran` in `SkfSession.dfy` is given for each handler as an equivalence.
- The repository's own README describes resolving `key_id` to a device; the code does not do it. The
  model follows the code.

## Model

| member | source | states |
|---|---|---|
| Registry.DeviceTable.Add | src/server/service/resource.c:11-20 | appends a device unless the table is full, changes nothing else |
| Registry.DeviceTable.DeviceSupports | src/server/service/resource.c:33-55 | true exactly when some declared capability matches the query |
| Registry.DeviceTable.AcquireCandidate | src/server/service/resource.c:81-133 | picks the specified device, adds exactly one lease to it, and changes nothing when there is none |
| Registry.DeviceTable.FirstHinted | src/server/service/resource.c:94-108 | the hinted scan over the array is the specified first match |
| Registry.DeviceTable.BestOfType | src/server/service/resource.c:110-122 | the inner scan over the array is the specified minimum search |
| Registry.DeviceTable.BestInOrder | src/server/service/resource.c:110-129 | the scans for each type in turn are the specified fallback search |
| Registry.DeviceTable.ReleaseDevice | src/server/service/resource.c:135-147 | takes one lease from the first device with the id, if it has one |
| Registry.BestUpTo | src/server/service/resource.c:112-122 | the scan's best is eligible and of the wanted type, and none means that there is no such device |
| Registry.PickHinted | src/server/service/resource.c:94-108 | the device has the hinted id and is eligible; none means that no device with that id is |
| Registry.Pick | src/server/service/resource.c:81-133 | a picked device is eligible and has the hinted id when there is a hint |
| Registry.RankIsStrictTotalOrder | src/server/service/resource.c:57-79 | the ranking is irreflexive, transitive and total |
| Registry.BetterIsRankLess | src/server/service/resource.c:57-79 | the pairwise comparison is that ranking among devices of one fallback position |
| Registry.PickIsGlobalOptimum | src/server/service/resource.c:110-129 | an unhinted acquire takes k if and only if k is the least candidate over the whole registry, and fails if and only if there is no candidate |
| Registry.PickIgnoresTableOrder | src/server/service/resource.c:110-129 | with distinct ids the chosen device is the same for every permutation of the registry |
| Registry.ReleaseUndoesLease | src/server/service/resource.c:135-147 | release restores the table after a lease if and only if the device is the first with its id |
| Registry.FirstWithDistinctIds | src/server/service/resource.c:11-20 | with distinct ids every device is the first with its id |
| Registry.AcquireKeepsBalance | src/server/service/resource.c:57-79 | one acquire keeps the loads of two otherwise equal devices within one of each other |
| Registry.TwinsStayBalanced | src/server/service/resource.c:110-129 | so does every run of acquires without a release |
| Leases.RepliesAreSpecified | src/server/service/scheduler.c:325-363 | in every run, however workers interleave, an answer is the specified reply for the tables that its steps met, and those are states of the registry earlier in the run |
| Leases.StepKeepsFacts | src/server/service/scheduler.c:188-220 | every step of every worker keeps: the table changes in its counters only, each lease is recorded with its device, each finished step has met a table and succeeded on the result before it |
| Leases.RunKeepsFacts | src/server/service/scheduler.c:279-323 | so it holds throughout every run of any number of workers, behind any pin |
| Leases.ReleaseFindsItsDevice | src/server/service/resource.c:135-147 | in every run of n workers that are not exposed, a release takes back exactly its worker's own lease, and the guard never blocks it |
| Leases.StepKeepsCounted | src/server/service/scheduler.c:188-220 | every step that leases no device behind another with its id keeps: counter equals holders, limits |
| Leases.RunKeepsCounted | src/server/service/scheduler.c:279-323 | so the counters are right throughout every run of n workers that are not exposed |
| Leases.LeasesConserved | src/server/service/resource.c:81-147 | then each counter is its number of holders and within its limit, and is zero when no worker holds a lease |
| Leases.BoundRequestsHoldTheirDevice | src/server/service/scheduler.c:132-160 | under every interleaving a lease held for a bound request is a lease of its device, and an unresolved request never holds one |
| Leases.ExposureBreaksConservation | src/server/service/resource.c:135-147 | n workers that are exposed have a run in which a counter is wrong |
| Leases.ConservedIffUnexposed | src/server/gateway/server.c:110-131 | for every number of workers, conservation in all runs if and only if no request can be given a shadowed device while fewer leases are out than there are workers |
| Leases.DistinctIdsSuffice | src/server/service/resource.c:11-20 | with distinct ids no number of workers is exposed |
| Leases.ConservedIffNoneShadowed | src/server/service/resource.c:11-20 | conservation holds in all runs of all worker counts if and only if no leasable device is shadowed |
| JobQueue.Ring.Push | src/server/gateway/queue.c:12-27 | one pass through push appends to the queue, waits when full, or refuses after stop |
| JobQueue.Ring.Pop | src/server/gateway/queue.c:29-44 | one pass through pop removes the oldest job, waits when empty, or fails when empty and stopped |
| JobQueue.Ring.Stop | src/server/gateway/queue.c:46-52 | sets the stop flag and keeps the queued jobs |
| JobQueue.Ring.constructor | src/server/gateway/queue.c:5-10 | an empty queue that is not stopped |
| Monitor.PushEffect | src/server/gateway/queue.c:12-27 | a pass through push has the queue's outcome and moves no other thread into or out of waiting |
| Monitor.PopEffect | src/server/gateway/queue.c:29-44 | likewise for pop |
| Monitor.StepKeepsInv | src/server/gateway/queue.c:12-52 | every step, spurious wakeups included, keeps the wakeup and history invariant |
| Monitor.RunKeepsInv | src/server/gateway/queue.c:12-52 | so it holds in every reachable state |
| Monitor.NoLostWakeup | src/server/gateway/queue.c:12-52 | while a consumer sleeps unsignalled there are at most as many jobs as woken consumers; the same for producers and free slots; after stop nobody sleeps |
| Monitor.SomeoneCanProceed | src/server/gateway/queue.c:12-52 | a sleeping thread with work to do comes with a woken one, and both sides are never asleep together |
| Monitor.FirstInFirstOut | src/server/gateway/queue.c:12-44 | popped jobs are a prefix of pushed jobs in push order, and the rest is the queue |
| Monitor.StopIsForever | src/server/gateway/queue.c:46-52 | after stop nothing more is ever pushed |
| Monitor.DrainOnStop | src/server/gateway/queue.c:29-44 | once a pop has failed, everything pushed has been popped, for good |
| Server.StepKeepsInv | src/server/gateway/server.c:73-85 | every step of acceptor and workers keeps: each accepted connection is in exactly one place |
| Server.RunKeepsInv | src/server/gateway/server.c:136-183 | so it holds in every run |
| Server.ClosedAtMostOnce | src/server/gateway/server.c:63-71 | no connection is ever closed twice, and none that was not accepted |
| Server.EveryConnectionClosed | src/server/gateway/server.c:136-183 | with a worker, when the server has joined its workers each accepted connection was closed exactly once |
| Server.ClosesAllIffWorkers | src/server/gateway/server.c:110-183 | that holds in all runs if and only if there is at least one worker |
| Server.NoWorkersLeak | src/server/gateway/server.c:110-183 | a run without workers that accepts a connection and never closes it |
| Server.NeverTurnedDown | src/server/gateway/server.c:165-174 | the branch for a refused push is unreachable |
| Server.StoppedStepDescends | src/server/gateway/server.c:177-181 | after stop every step, in any schedule, lowers a measure |
| Server.ShutdownIsFinite | src/server/gateway/server.c:177-181 | so shutdown takes a bounded number of steps |
| Server.NeverStuck | src/server/gateway/server.c:73-85 | until the server has finished some thread can take a step that is not a mere spurious wakeup |
| Server.MaximalRunClosesAll | src/server/gateway/server.c:136-183 | a run that cannot go on has finished and closed everything once |
| CStrings.Snprintf | src/server/service/scheduler.c:28-36 | the buffer then holds the longest prefix that leaves room for the NUL |
| CStrings.NextToken | src/server/service/scheduler.c:92-108 | repeated calls return the maximal runs without the delimiter |
| CStrings.TokensOfJoin | src/server/service/scheduler.c:222-277 | tokenizing undoes joining for all delimiter-free non-empty parts |
| CStrings.TokensOfTwo | src/server/service/scheduler.c:88-109 | a delimiter between two texts separates their tokens |
| CStrings.TokensOfCut | src/server/service/config.c:101-103 | cutting a text keeps its first tokens, the last perhaps cut short, and all of them if and only if only delimiters are cut off |
| CStrings.FindIsFirst | src/server/gateway/protocol.c:178-211 | `strstr` finds the first occurrence, and none only if there is none |
| CStrings.LessIff | src/server/service/resource.c:76-78 | the order of ids: the first differing byte decides, and a proper prefix is smaller |
| Json.UnescapeEscape | src/server/gateway/protocol.c:285-309 | a reader after section 7 of RFC 8259 inverts the escaping of every NUL-free byte string |
| Json.EscapeHasNoControl | src/server/gateway/protocol.c:285-309 | escaped text has no byte below 0x20 |
| Json.EscapeIsIdentity | src/server/gateway/protocol.c:285-309 | text is unchanged if and only if it has no quote, backslash or control byte |
| Json.EscapeLength | src/client/api/ccm_api.c:77-93 | escaping never shortens and at most multiplies the length by six |
| Json.Writer.AppendRaw | src/client/api/ccm_api.c:70-75 | appends all of it if it fits with its NUL, otherwise fails |
| Json.Writer.AppendJsonString | src/client/api/ccm_api.c:77-93 | the client's escaper writes the same bytes as the server's, and succeeds if and only if they fit |
| Json.Writer.AppendJsonEscaped | src/server/gateway/protocol.c:285-309 | the server's escaper likewise |
| Json.Writer.AppendField | src/client/api/ccm_api.c:95-102 | a field is written whole, if and only if it fits |
| Json.Writer.AppendJsonField | src/server/gateway/protocol.c:311-326 | the server's field printer writes the same text |
| JsonReader.FieldIsRead | src/client/api/ccm_api.c:95-102 | a printed field is read back as its member, name and value, by a reader after RFC 8259, whatever the value is and whatever follows |
| JsonReader.NumberIsRead | src/server/gateway/protocol.c:339-341 | a numeral is read as the number that it writes, up to the next comma or brace |
| RequestCodec.AppendHead | src/client/api/ccm_api.c:104-116 | the four mandatory fields in order, or no room for the message |
| RequestCodec.AppendOptions | src/client/api/ccm_api.c:115-120 | the six optional fields, those that are not empty, in order |
| RequestCodec.BuildJson | src/client/api/ccm_api.c:104-123 | each error exactly when its cause holds, otherwise the message and one line break |
| RequestCodec.ClassicAlgorithmWords | src/client/api/ccm_api.c:38-46 | the names of the classic algorithms and of no algorithm, by number |
| RequestCodec.CipherAlgorithmWords | src/client/api/ccm_api.c:47-51 | the names of the ciphers by number and mode |
| RequestCodec.PqcAlgorithmWords | src/client/api/ccm_api.c:52-60 | the names of the other algorithms by number; every larger number is unsupported |
| WireFormat.RequestIsRead | src/client/api/ccm_api.c:104-123 | whatever the values, a built request is a JSON object of exactly these members: the four mandatory ones and each non-empty option under its own name, with its value |
| RequestParser.ExtractJsonString | src/server/gateway/protocol.c:178-211 | the three return codes, and the value in the buffer, are those of the specified finder |
| RequestParser.ParseRequestJson | src/server/gateway/protocol.c:222-283 | the parse is the specified one, errors included |
| RequestParser.AcceptedFields | src/server/gateway/protocol.c:222-283 | each field of an accepted request, the pin included, is what was found under its own name, and optional fields that are not found are empty |
| RequestParser.RejectedIff | src/server/gateway/protocol.c:230-282 | each error if and only if its cause holds and none that is checked before |
| RequestParser.DefaultedByAction | src/server/gateway/protocol.c:213-220 | without an algorithm, or with one too long, a hash request is for SM3 and any other for `auto` |
| RequestParser.KeyWords | src/server/gateway/protocol.c:231-268 | the eleven names on the wire |
| RequestParser.FieldSizes | include/common.h:83-96 | the sizes of the buffers that the fields are read into |
| FieldFinder.FoundHere | src/server/gateway/protocol.c:178-211 | a quoted name directly behind quote-free text is found there |
| FieldFinder.FoundLater | src/server/gateway/protocol.c:178-211 | a quoted piece that is not the name is passed over |
| FieldFinder.FinderIsLookup | src/server/gateway/protocol.c:178-211 | on messages without quotes in values the search is a lookup by field, except that a value equal to the name is taken for it |
| FieldFinder.SpacedFieldIsFound | src/server/gateway/protocol.c:190-200 | a hand-written member is found across any white space around its colon |
| RequestRoundTrip.KeyNamesDistinct | src/server/gateway/protocol.c:222-283 | the eleven field names are distinct |
| RequestRoundTrip.GetFromMessage | src/server/gateway/protocol.c:178-211 | every field of a built message is found with its value, or not at all when absent or too long |
| RequestRoundTrip.AlgorithmNameTravels | src/client/api/ccm_api.c:35-63 | every algorithm name of the client is sendable and its own normal form |
| RequestRoundTrip.RoundTrip | src/server/gateway/protocol.c:222-283 | parsing a built request gives back every field; options too long for the server's buffers arrive empty |
| RoundTripLimits.DecoyIsFirst | src/server/gateway/protocol.c:178-211 | which value is taken for a field: the first before it that equals its name, if another field follows |
| RoundTripLimits.LookupExact | src/server/gateway/protocol.c:178-211 | a field, present or absent, is read as it is if and only if no value is taken for it or the same value follows that one |
| RoundTripLimits.GetExactly | src/server/gateway/protocol.c:178-211 | what extraction from a built message gets for every key, whatever the clean values are |
| RoundTripLimits.RoundTripExactly | src/server/gateway/protocol.c:222-283 | a request of clean values is parsed to what was meant if and only if each value that is taken for a field is followed by one that means the same |
| RoundTripLimits.ParseExactly | src/server/gateway/protocol.c:222-283 | a line is parsed to a given request if and only if each field means what the request has there |
| RoundTripLimits.IdIsTakenForField | src/server/gateway/protocol.c:178-211 | a request id that is a field's name makes the server read the domain for that field |
| RoundTripLimits.PayloadIsReplaced | src/server/gateway/protocol.c:178-211 | a request whose payload is present and clean, fits, and is not what the server reads |
| RoundTripLimits.RecoveredExactly | src/server/gateway/protocol.c:178-211 | behind any quote-free fields that are not taken for it, any value is recovered if and only if it needs no escape and fits |
| Framing.ReadLineInto | src/server/gateway/server.c:22-43 | the buffer holds the stream up to its first line break, or as much as fits |
| Framing.RequestIsOneLine | src/client/api/ccm_api.c:104-123 | whatever the values, the server's reader gets exactly the built message |
| Framing.ResponseToJson | src/server/gateway/protocol.c:328-354 | writes the whole response, if and only if it fits |
| WireFormat.ResponseIsRead | src/server/gateway/protocol.c:328-354 | whatever the values, a response is a JSON object of exactly its seven members in order, each with its own value and the status with its number |
| WireFormat.StatusIsPrinted | include/common.h:74-81 | each status is printed as the decimal numeral of its number |
| Framing.SentIff | src/server/gateway/server.c:63-71 | the exact length of a response; it is sent if and only if that is less than 2560 |
| Framing.ErrorIsSent | src/server/service/scheduler.c:21-26 | an error response is always sent, whatever bytes its message has |
| Framing.ReadResponse | src/client/transport/client_transport.c:26-49 | whatever pieces the bytes arrive in, the buffer holds a prefix that ends at the stream's end, behind a line break, or when it is full |
| Framing.ResponseIsOneLine | src/client/transport/client_transport.c:26-49 | at most 2560 bytes are sent, and the client has exactly those, line break included, cut only if its buffer is too small |
| KeyRefText.AppendKeyRef | src/client/api/ccm_api.c:139-156 | the key reference's text is appended, or there was no room for it |
| KeyRefText.DigitsWrite | src/client/api/ccm_api.c:23-33 | the printed digits of every number are its numeral in the base, read by position, without leading zeros |
| KeyRefText.KeyNumbersAreRead | src/client/api/ccm_api.c:139-146 | the number or address read out of a printed key reference under each of its six names is the key's own, whatever the ids contain |
| KeyRefText.KeyRefGetToken | src/server/service/scheduler.c:88-109 | the value of the first token with the name, cut to the buffer |
| KeyRefText.ItemsRoundTrip | src/server/service/scheduler.c:88-109 | what each name yields in a printed list, whatever the values contain; for values without separator the text of its first item |
| KeyRefText.KeyRefRead | src/server/service/scheduler.c:88-109 | what the server reads for every name in a printed key reference, whatever the ids contain |
| KeyRefText.KeyRefRoundTrip | src/client/api/ccm_api.c:139-156 | every field is recovered and nothing else is found if and only if neither id has a semicolon |
| KeyRefText.SecondKeyIsShadowed | src/client/api/ccm_api.c:139-156 | of two key references in one text the second answers only for what the first does not say, whatever the ids contain |
| KeyRefText.PrintedLength | src/client/api/ccm_api.c:23-33 | the exact length of the text |
| KeyRefText.KeyRefFits | src/client/api/ccm_api.c:139-156 | with enumerators in range it takes at most 251 bytes |
| KeyRefText.SourceRecovered | src/server/service/scheduler.c:111-130 | the source is recovered whatever the ids contain |
| KeyRefText.SourceRecoveredAsNumber | src/server/service/scheduler.c:111-130 | the server sees the number of the source, and an internal key if and only if it is 1 |
| KeyRefText.SourceWords | src/server/service/scheduler.c:111-130 | each source is recognized by its number and by its word, and by nothing else |
| KeyRefText.InternalKeyResolves | src/server/service/scheduler.c:132-160 | where an internal key goes, whatever its ids contain: the device the server sees, else the hint, else nowhere; nowhere on a conflict |
| KeyRefText.OtherKeysFollowTheHint | src/server/service/scheduler.c:141-146 | a key of any other source leaves the device to the hint, whatever its ids say |
| KeyRefText.OwnDeviceIsSeen | src/server/service/scheduler.c:132-160 | the server sees the key's own device if and only if it has no semicolon and the key id injects no other |
| KeyRefText.InjectedDeviceWins | src/server/service/scheduler.c:88-109 | a key id that continues with a device binds the key to that device |
| KeyRefText.HybridResolves | src/server/service/scheduler.c:132-160 | the same for two key references in one text |
| Route.RouteBuffered | src/client/api/ccm_api.c:165-182 | each error exactly when its cause holds, in the order of the code, otherwise the message with parameters, key and buffers |
| Route.ParametersAreRead | src/client/api/ccm_api.c:129-137 | the five algorithm parameters read out of a call's payload text are the call's own |
| Route.DataIsRead | src/client/api/ccm_api.c:158-163 | so are the address and the length of its data, with parameters or without |
| Route.AuxInIsRead | src/client/api/ccm_api.c:158-163 | so are address and length of the auxiliary input |
| Route.OutputIsRead | src/client/api/ccm_api.c:179-180 | so is the address of the output, and its length if there is no auxiliary input |
| Route.OptionsAlwaysFit | src/client/api/ccm_api.c:165-182 | the option buffers hold whatever arguments of the C types print |
| Route.ListIsSendable | src/client/api/ccm_api.c:129-163 | a printed list that needs no escape is never taken for a field's name |
| Route.RenderLength | src/client/api/ccm_api.c:95-102 | the exact length of the fields when nothing needs an escape |
| Route.ShortRequestIsGood | src/client/api/ccm_api.c:104-123 | sendable options of 1200 bytes together make a request that meets all conditions of the trip and fits the line |
| Route.RoutedCallIsGood | src/client/api/ccm_api.c:165-182 | so does every call with known names and clean ids, whatever parameters, key and buffers it carries |
| SequenceText.ParseOneStep | src/server/service/scheduler.c:238-270 | the inner tokenizer parses one step as specified |
| SequenceText.ParseSequence | src/server/service/scheduler.c:222-277 | the outer tokenizer parses the sequence as specified |
| SequenceText.StepIsSpelled | src/server/service/scheduler.c:246-273 | a token is a given step if and only if its first four parts spell the names of that step, in any case and spacing |
| SequenceText.ShortStep | src/server/service/scheduler.c:246-268 | which error a token of fewer parts is |
| SequenceText.AcceptedIff | src/server/service/scheduler.c:222-277 | a sequence is given steps if and only if they are at most four and each token is the step in its place |
| SequenceText.AcceptedStepsAreKnown | src/server/service/scheduler.c:222-277 | an accepted sequence has at most four steps, one for each token, with known names and normal-form algorithms |
| SequenceText.SequenceRoundTrip | src/server/service/scheduler.c:222-277 | parsing inverts printing for every list of at most four printable steps that fits |
| SequenceText.FifthStepRefused | src/server/service/scheduler.c:232-236 | every printed list of more than four steps is refused |
| Names.CopyLowerTrim | src/server/gateway/protocol.c:7-22 | the buffer holds the input without white space, in lower case, as far as it fits |
| Names.SquashIffSpells | src/server/gateway/protocol.c:7-22 | copying in lower case without white space is what undoes a spelling: the copy is a name if and only if the text is that name with some letters as capitals and white space anywhere |
| Names.CaseIsIgnored | src/server/gateway/protocol.c:15-18 | capitals do not matter: each is read as its own small letter |
| Names.SpaceIsIgnored | src/server/gateway/protocol.c:12-14 | each of the six white-space characters can stand anywhere |
| Names.DomainNames | src/server/gateway/protocol.c:85-100 | a known domain is parsed from the spellings of its printed name, capitals and white space anywhere, and from nothing else |
| Names.ActionNames | src/server/gateway/protocol.c:102-130 | likewise for actions |
| Names.DeviceTypeNames | src/server/gateway/protocol.c:132-142 | likewise for device types |
| Names.PreferenceNames | src/server/gateway/protocol.c:144-155 | each preference is parsed from the spellings of its words, and from nothing else |
| Names.DomainWords | src/server/gateway/protocol.c:24-37 | the printed names of the domains |
| Names.KeyActionWords | src/server/gateway/protocol.c:39-65 | the printed names of the key actions; `DeviceActionWords`, `CryptoActionWords` and `FileActionWords` have the others |
| Names.TableRoundTrip | src/server/gateway/protocol.c:24-155 | parsing a printed domain, action, device type or preference gives it back |
| Names.NormalizeAlgorithmName | src/server/gateway/protocol.c:157-176 | return code and buffer are those of the specified normal form |
| Names.NormalizeIdempotent | src/server/gateway/protocol.c:157-176 | normalizing twice is normalizing once, for every buffer size |
| Names.NormalizeIgnoresCaseAndSpace | src/server/gateway/protocol.c:7-22 | two spellings of one name have one normal form if and only if both or neither are empty |
| Names.BlankIsNotEmpty | src/server/gateway/protocol.c:157-176 | the empty name is `auto`, a blank one an error |
| Names.AliasesAgree | src/server/gateway/protocol.c:163-172 | every spelling of an alias has the normal form of the name it stands for |
| Names.NameIsNormalForm | src/server/gateway/protocol.c:157-176 | every spelling of a name that is no alias has that name as its normal form |
| Config.CutInPlace | src/server/service/config.c:26-38 | a NUL over the first colon leaves two C strings: the part before it and the part behind it |
| Config.ParseEntry | src/server/service/config.c:21-52 | the entry cut in its buffer is parsed as specified |
| Config.LoadList | src/server/service/config.c:93-107 | the loop over the entries is the specified load |
| Config.LoadedAreKnown | src/server/service/config.c:93-107 | of the first 511 bytes each entry is read or the list is refused, at most 48; then the capabilities are those of the entries in order, all known |
| Config.NothingLostIff | src/server/service/config.c:101-103 | every declared entry is loaded whole if and only if the list has less than 512 bytes or only separators behind the first 511 |
| Config.ShortListIsLoaded | src/server/service/config.c:93-107 | a shorter list is accepted if and only if all declared entries are and there are at most 48; then it has a capability for each |
| Config.LongListLosesItsTail | src/server/service/config.c:93-107 | an accepted list of any length holds the first declared entries, as many as start in the first 511 bytes |
| Config.LastEntryMayBeCut | src/server/service/config.c:93-107 | the last of them is read from a prefix of its text |
| Config.SplitEntry | src/server/service/config.c:26-38 | cutting undoes writing the parts one after another |
| Config.SpellingIsIrrelevant | src/server/service/config.c:21-52 | entries whose parts are spellings of the same names, or aliases of one algorithm, declare the same capability |
| Config.MatchesUpToSpelling | src/server/service/resource.c:33-55 | a declared capability matches a request if and only if the names agree up to spelling and the key source is declared |
| Config.SourcesAgree | src/server/service/config.c:12-19 | a word or number of a key source in the device file stands for the source that the same text stands for in a key reference |
| Translator.FindRuleIn | src/server/service/translator.c:114-137 | the scan returns the specified row |
| Translator.AtMostOneRule | src/server/service/translator.c:28-112 | at most one row matches any device, domain, action and algorithm |
| Translator.TableOrderIrrelevant | src/server/service/translator.c:114-137 | scanning any permutation of the table finds the same row |
| Translator.AppendText | src/server/service/translator.c:16-26 | appends as much as fits |
| Translator.TranslateBackendCall | src/server/service/translator.c:139-174 | the translation is the specified one, and fails exactly when no row matches |
| Results.DeviceIsReported | src/server/service/translator.c:157-160 | a successful step reports its device and that device's type and profile |
| Results.LibraryAnswers | src/server/service/scheduler.c:208-216 | on the SKF profile the result is the library's |
| Results.ClassicDevice | src/server/driver/driver_classic.c:29-46 | the result text of each device action on a classic device |
| Results.ClassicKey | src/server/driver/driver_classic.c:48-78 | of each key action: algorithm and key reference in their places |
| Results.ClassicAsym | src/server/driver/driver_classic.c:80-104 | of each asymmetric action: the step's algorithm, then the payload it consumed |
| Results.ClassicSym | src/server/driver/driver_classic.c:106-127 | of each symmetric action |
| Results.ClassicHash | src/server/driver/driver_classic.c:129-142 | of hashing |
| Results.ClassicFile | src/server/driver/driver_classic.c:144-168 | of each file action: the key reference |
| Results.PqcDevice | src/server/driver/driver_pqc.c:29-46 | the same on a post-quantum device for the device actions |
| Results.PqcKey | src/server/driver/driver_pqc.c:48-69 | for the key actions |
| Results.PqcHash | src/server/driver/driver_pqc.c:71-84 | for hashing |
| Results.PqcFile | src/server/driver/driver_pqc.c:86-110 | for the file actions |
| Results.PqcPqc | src/server/driver/driver_pqc.c:112-135 | for signing, verifying, encapsulation and decapsulation: the step's algorithm, then the payload it consumed |
| CallNames.SlotIsReported | src/server/service/translator.c:114-174 | a successful step reports the vendor function of the row that profile, type, domain, action and algorithm decide; `Calls1` to `Calls9` give the function of each row |
| Translator.AdaptersSupport | src/server/driver/driver_classic.c:29-181 | an adapter succeeds if and only if its device type handles the domain and action |
| Translator.RulesHandled | src/server/driver/driver_pqc.c:29-149 | every row of the table outside the SKF profile has such a handler |
| Translator.TranslatesIffRule | src/server/service/translator.c:114-174 | a call translates if and only if some row of the table matches |
| Translator.TranslationSuffices | src/server/service/scheduler.c:203-216 | what translates is executed if and only if, on the SKF profile, the library answers |
| Translator.SoftlibCannotHash | src/server/service/translator.c:28-112 | the declared SM3 capability of `softlib` has no rule |
| Scheduler.StepSucceedsIffRule | src/server/service/scheduler.c:203-216 | a leased device runs the step if and only if a row matches and, on the SKF profile, the library answers |
| Scheduler.ExecuteSingleStep | src/server/service/scheduler.c:162-220 | with other workers between its critical sections, the outcome is the specified one for the table on which it leased, and every exit has given the lease back |
| Scheduler.ReleaseGivesBack | src/server/service/scheduler.c:203-220 | with distinct ids a release takes back exactly this worker's lease, whatever the others hold by then |
| Scheduler.AppendIsClippedJoin | src/server/service/scheduler.c:28-36 | appending with a separator and clipping each time is clipping the ideal joined list once |
| Scheduler.ExecuteSteps | src/server/service/scheduler.c:295-318 | among other workers the loop computes the fold of the steps, each on the table it met, and the clipped lists, or stops with the first failure |
| Scheduler.ExecuteSequence | src/server/service/scheduler.c:279-323 | the response to a sequence is the specified one for the tables its steps met, and no lease is left behind |
| Scheduler.ExecuteSingle | src/server/service/scheduler.c:341-362 | the response to a single request on the table it met; its trace is the clipped list of device, call and result |
| Scheduler.Execute | src/server/service/scheduler.c:325-363 | the response to any request, whatever other workers do meanwhile, and no lease is left behind |
| Scheduler.ChainFeedsForward | src/server/service/scheduler.c:295-318 | each step of a completed sequence ran on the result of the step before it, on the table it met itself |
| Scheduler.OneStepSequenceAgrees | src/server/service/scheduler.c:279-363 | with a hint or bound key, a sequence of one step answers like the request without it, up to the trace and the error status |
| Scheduler.LeasedDeviceDeclaresStep | src/server/service/resource.c:33-55 | a leased device is enabled, has room and declares the step's domain, action, algorithm and key source |
| Scheduler.HintedStepUsesItsDevice | src/server/service/scheduler.c:183-186 | a device hint is obeyed by every step, typed or not |
| Scheduler.PreferredTypeFirst | src/server/service/scheduler.c:62-86 | an unbound, untyped step gets a device of the preferred type if and only if one is eligible |
| Choice.UnhintedChoosesIff | src/server/service/scheduler.c:62-86 | without hint and internal key a step gets a device if and only if one of its type serves it, or of either type if it names none |
| Choice.BoundChoosesIff | src/server/service/resource.c:94-108 | bound to an id it gets one if and only if a device with that id serves it, and then the first |
| Choice.ChoosesIff | src/server/service/scheduler.c:162-201 | a step of any request gets a device if and only if some device of the table fits it |
| Choice.ChosenIsBest | src/server/service/resource.c:57-79 | no device of the chosen one's type that serves the step has a better score, then a smaller priority number, then less load, then a smaller id |
| Scheduler.SucceededStepFollowsItsRule | src/server/service/translator.c:114-174 | a successful step reports its leased device and the call of the one matching row |
| Scheduler.TypedStepUsesItsType | src/server/service/scheduler.c:186-200 | without hint and internal key each step's device has the step's declared type |
| Scheduler.UnresolvedNeverChooses | src/server/service/scheduler.c:183-185 | a conflict or an unbound key fails with its reason before any counter changes |
| Scheduler.BoundChainUsesItsDevice | src/server/service/scheduler.c:132-220 | every step of a bound sequence runs on the bound device, however the table changes between the steps |
| Scheduler.AnsweredWithoutStep | src/server/service/scheduler.c:222-293 | a sequence is answered without running a step if and only if its first 1023 bytes are delimiters only |
| Answers.PinDecides | src/server/service/scheduler.c:38-60 | a request is refused as unauthorized if and only if a pin is configured and it brings another; the right pin answers a pin check, and changes nothing for any other request |
| Answers.SingleAnswerShows | src/server/service/scheduler.c:341-362 | each field of the answer is the step's own, and the trace lists device, call and result |
| Answers.SingleRefusal | src/server/service/scheduler.c:341-355 | a failed step is refused with NoResource and its reason |
| Answers.ListIsJoined | src/server/service/scheduler.c:28-36 | the list in a field is the non-empty values from front to back with separators between them |
| Answers.AnsweredSequence | src/server/service/scheduler.c:279-323 | an answered sequence has run all its steps in turn, each on the result before it, and its fields list their devices, back ends, calls and results |
| Answers.UnparsableSequence | src/server/service/scheduler.c:286-290 | a sequence that cannot be parsed is refused with BadRequest and the parser's error |
| Answers.BrokenSequence | src/server/service/scheduler.c:298-312 | any other sequence without an answer stopped at its first failing step and is refused with BackendFail and that step's reason |
| SequenceText.NoStepsIff | src/server/service/scheduler.c:222-277 | a text stands for no steps if and only if that is so |
| Delivery.SingleSentIff | src/server/gateway/server.c:63-71 | the answer to a single request of plain values is sent if and only if its lengths, the result counted twice, stay below 2560 |
| Delivery.LongSequenceIsDropped | src/server/gateway/server.c:63-71 | when two or more steps repeat a payload of 800 bytes the steps succeed and nothing is sent, whatever tables they met |
| EndToEnd.Arrives | src/server/gateway/server.c:136-164 | what the client builds and sends is what the server reads and parses, whatever follows on the connection |
| EndToEnd.CallArrives | src/client/api/ccm_api.c:165-182 | of every API call with known names and clean ids the server has the domain, action, algorithm, key, payload and auxiliary payload |
| Route.PrintedIsSendable | src/client/api/ccm_api.c:139-156 | a printed key reference survives the trip when its ids need no escape |
| EndToEnd.KeyBindingEndToEnd | src/server/service/scheduler.c:132-220 | how an internal key sent by the client, with any ids and hint, binds its request: every step on every table chooses the device it resolves to, or none |
| EndToEnd.BoundToOwnDevice | src/server/service/scheduler.c:132-160 | the exact condition on ids and hint for that to be the key's own device |
| EndToEnd.KeyBindingInEveryRun | src/server/service/scheduler.c:132-220 | the same for every lease held in every run of any number of workers |
| EndToEnd.BoundReplyNamesItsDevice | src/server/service/scheduler.c:279-323 | the answer to a bound request names its device once for each step and no other, whatever tables the steps met |
| EndToEnd.BoundAnswersInEveryRun | src/server/service/scheduler.c:279-363 | so does every answer given in every run of any number of workers |
| EndToEnd.UnresolvedIsRefused | src/server/service/scheduler.c:325-363 | an unresolvable request never leases, and is answered if and only if it is an accepted pin check or a sequence of delimiters only |
| EndToEnd.HybridKeyBinding | src/client/api/ccm_api.c:139-156 | two key references, with any ids and hint, bind like one while they fit the server's field together; otherwise the server sees no key |
| EndToEnd.HybridKeepsFirstDevice | src/client/api/ccm_api.c:139-156 | without hint the first key's device is kept if and only if both fit and it is what that key names |
| EndToEnd.HybridCanOverflow | src/client/api/ccm_api.c:243-244 | two keys within their types, with plain ids, whose request arrives and is not bound |
| EndToEnd.BuiltRequestsCarryNoPin | src/server/service/scheduler.c:38-60 | a built request is refused as unauthorized if and only if a pin is configured |
| EndToEnd.SpellingOfAlgorithm | src/server/gateway/protocol.c:222-283 | requests that spell the algorithm differently parse to the same request |
| HexCodec.DecodeHex | src/server/driver/skf_adapter.c:168-184 | return code and bytes are the specified ones, and nothing at or past the capacity is written |
| HexCodec.BytesToHex | src/server/driver/skf_adapter.c:202-212 | exactly min(n, (size - 1) / 2) whole bytes are shown |
| HexCodec.GapsIgnored | src/server/driver/skf_adapter.c:168-184 | spaces, colons and dashes between pairs never change what is decoded, and decoding fails only for lack of room |
| HexCodec.PairIsNumeral | src/server/driver/skf_adapter.c:202-212 | a byte is printed as the two digits of its value in base sixteen |
| HexCodec.HexDigitIff | src/server/driver/skf_adapter.c:161-166 | a digit is read in either case as its value, and nothing else is |
| HexCodec.HexRoundTrip | src/server/driver/skf_adapter.c:168-212 | decoding gives back exactly the bytes that were shown |
| HexCodec.DecodedTextIsHex | src/server/driver/skf_adapter.c:168-184 | whatever decodes is the printed form of its bytes up to case and separators, and fits |
| SkfSession.OpenIsOpenedMinusClosed | src/server/driver/skf_adapter.c:418-432 | in the event log a handle is open as often as it was opened more than closed |
| SkfSession.BalancedClosesEachOnce | src/server/driver/skf_adapter.c:418-432 | a balanced log closes every handle as often as it was opened, and never before |
| SkfSession.Session.OpenRuntime | src/server/driver/skf_adapter.c:264-315 | succeeds if and only if the library and all required symbols load; the library is open either way |
| SkfSession.Session.OpenBase | src/server/driver/skf_adapter.c:434-441 | on failure everything is closed if and only if no required symbol was missing and the failed connect wrote no handle |
| SkfSession.Session.OpenAppContainer | src/server/driver/skf_adapter.c:443-453 | what it opens, and exactly when a failure leaves nothing open |
| SkfSession.Session.CloseSession | src/server/driver/skf_adapter.c:418-432 | closes container, application and device innermost first; what is left is what has no closing function |
| SkfSession.Session.Finalize | src/server/driver/skf_adapter.c:455-459 | balanced if and only if nothing is left |
| SkfSession.Session.DeviceManage | src/server/driver/skf_adapter.c:461-499 | opens library and device, and closes both once, innermost first, exactly when the opening was tidy |
| SkfSession.Session.KeyManage | src/server/driver/skf_adapter.c:553-614 | the same with application and container, or a transient key handle that is closed only when importing succeeds |
| SkfSession.Session.AsymCrypto | src/server/driver/skf_adapter.c:616-709 | the same on the device for verify and encrypt, in the container otherwise; nothing is opened for bad input |
| SkfSession.Session.SymOrHash | src/server/driver/skf_adapter.c:719-792 | the same with a key or hash handle, closed on every exit |
| SkfSession.Session.FileOps | src/server/driver/skf_adapter.c:794-830 | the same with the application |
| SkfSession.Session.PqcOps | src/server/driver/skf_adapter.c:832-877 | the same on the device |
| SkfSession.WellBehavedIsTidy | src/server/driver/skf_adapter.c:418-459 | when failed opens leave NULL and no function is missing, every handler is balanced |
| SkfSession.KeyActionsOpen | src/server/driver/skf_adapter.c:553-614 | which kinds of handles each key action opens when everything works: access and destruction stay in the application, the others enter a container, only an import has a key handle |
| SkfSession.AsymActionsOpen | src/server/driver/skf_adapter.c:627-631 | verifying and encrypting open the device alone, signing and decrypting a container |

## Left out

- Sockets, signals, logging, reading of configuration files and the splitting of their lines: input and output. `read_line` is modelled on the bytes that arrive before end of file.
- `dlopen`, `dlsym`, environment variables and what the vendor's functions compute: parameters (`Vendor`), with a ghost log of what is opened and closed.
- What the classic and PQC adapters compute: they format strings. The model keeps which domains and actions they accept and the formatted texts.
- The texts of error messages: an error response is its status and its reason.
- Memory allocation and thread creation failing.
- Managed keys (`key_id` to device): not in the code.
- The one-line `CCM_*` wrappers around `route_buffered`, the calls that fill their options by themselves (keypair, agreement, hybrid; two keys in one field are modelled), login and pin stubs, and `CCM_GetVersion`.
- The C client library builds its messages and does not send them; `EndToEnd.dfy` is about a caller who does.
- `registry_find_by_id` and `translate_request_for_device`: not on the request path.
- Locales other than "C" for `isspace` and `tolower`, and C libraries that print pointers differently from glibc.
- `parse_sequence` and `key_ref_get_token` are modelled on string values where the C code cuts a copy in place; `parse_capability` is modelled in place (`Config.CutInPlace`).
- Writer contents after a failed append: the C code leaves a part of the text behind, and its callers give up.
- Scheduler.ExecuteSingleStep: assumes distinct ids, as do the methods built on it; without them `Leases.dfy` covers every registry, and `ConservedIffUnexposed` says which ones lose count.
- Delivery.SingleSentIff: about values that need no escape; `Framing.SentIff` covers all.
- SkfSession.Session.SymOrHash: one method for `gm3000_sym_crypto` and `gm3000_hash_ops`, which open and close alike.
- Leases.LeasesConserved: assumes `!Exposed(devs, n)`; `ConservedIffUnexposed` shows that the assumption is necessary.
