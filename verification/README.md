# Verified model of the gateway's cores

A Dafny 4.11 model of the parts of the gateway where correctness is a matter of state and arithmetic, with
proofs of what those parts are for. `dafny verify dfyconfig.toml` checks everything.

- **Proof of work.** `Bits` and `Fips202` transcribe words, bytes and FIPS 202 (SHA-3) bit by bit.
  `DeepSeekHash` is the unrolled 23-round permutation and the hash on arrays of words; `KeccakRefinement`
  proves that they are KECCAK-p[1600, 23] and the sponge over it. `Pow` is the nonce search with its
  pre-absorbed prefix and one or two tail blocks, proved to find the least solution of the challenge as it is
  written; `Hex` is hexadecimal decoding.
- **Account pool.** `PoolSpec` says what each critical section does to a pool, `Pool` is the locked object,
  `PoolRuns` proves safety, waiter safety and bounded fairness for every interleaving, `PoolWakes` whom each step
  wakes and that a freed account is taken, `PoolOrder` the order of the queue and the limits. `Lease` is the request
  that acquires, logs in, switches and returns leases while others interfere, tied to the runs of `LeaseSpec`;
  every lease is accounted to a holder.
- **Tool sieve.** `Markup` holds the scanners for tool tags (`MarkupReads` says what they read), `Fence` the Markdown
  fence automaton (`FenceByLine` compares it with reading line by line), `SieveScan` the detectors, `SieveXml` the decision on a captured block, `Sieve` the chunk-fed machine. `SievePieces` is
  a ledger: every piece of the input is emitted text or a piece dropped for a stated reason. The main
  theorems hold for every way of cutting the input into chunks, and for any parser of tool calls.
  `SieveCuts`, `SievePieceByPiece` and `SieveFencePieces` prove for wrappers and shell fences that however they are
  cut into chunks their calls are sent and no text is; `SievePlain` that ordinary text passes at once; `SieveForms`
  is about fences and malformed tails. `SieveBlocks` bounds the blocks that one chunk can finish, told from its
  text; `SieveTwoBlocks` has chunks that finish two.
- **Streams.** `Pump` coalesces parsed lines under a timer and conserves them under any timer schedule
  (`PumpFlow`, `PumpRuns`, `PumpTimer`, `PumpNotices`).
  `Continue` reads status signals from chunks (`ContinueSignals` says which); `Splice` joins the rounds of a
  continued answer into one stream.
- **Stores.** `History` and `HistoryStore` are the chat history: a ranked, bounded index over detail files whose
  writes may fail at any point; `HistoryRuns` is about any sequence of calls, `HistoryUpdates` about what an
  entry says after updates. `UploadCache` is the single-flight upload cache over all interleavings of callers;
  `UploadHits` proves that a fresh file is not uploaded again.
- **Text and values.** `JsonRepair` doubles stray backslashes, `SchemaNormalize` coerces arguments to strings
  where a schema asks for it, `SchemaValidity` compares that with what JSON Schema allows, `Cdata` renders text as
  CDATA sections.

Objects that the program updates in place are classes or arrays here; each method is tied to a function on
values, and the theorems about whole runs are about those functions. Concurrency is modelled as an arbitrary
interleaving of the sections each mutex protects; time, the network, the parser of tool calls, login outcomes,
JSON decoding and failing writes are parameters.

Where the code and what one might expect of it part, the model follows the code, the condition under which
the expectation holds is proved exactly, and a concrete run shows it failing:

- text that noteText skips can change what the fence automaton should know, a line break or form feed on its own
  for example (`Fence.NotedExact`; for whole runs `Fence.RunExact`; `Fence.ForgottenLineBreak`);
- a block of calls that finishes while another waits in the same chunk overwrites it
  (`Sieve.OverwritesExactly`; a condition on the text beforehand is `SieveBlocks.NothingOverwritten`;
  `SieveTwoBlocks.TwoBlocksInOneChunk`). At most one closing tag is not enough for that condition: what follows
  the block may still parse into calls as it stands (`SieveTwoBlocks.OneClosingTag`), so `SieveBlocks.Most` counts
  that as well. Both runs are for any parser that finds calls in the blocks named. With Bash among the tools the
  program's parser does so for the wrapper around `{"tool":"Bash"}`
  (internal/toolcall/toolcalls_multi_format.go:287) and for a closed bash fence
  (internal/toolcall/toolcalls_multi_format.go:59);
- a stop marker may overtake buffered thinking (`PumpTimer.StopOvertakesThinking`, `PumpTimer.OvertakenThinking`);
- releasing after a failed switch takes a lease from another holder (`Lease.ReleaseAfterFailedSwitch`,
  `Lease.StolenLease`);
- an account that is dropped while it is leased, by a cooldown for example, can be leased beyond its limit once it
  is listed again (`Lease.DroppedWhileLeased`); the record is exact for all other accounts and never too high
  (`Lease.AcquireWait`, `Lease.AcquireManaged`, `Lease.SwitchAccount`);
- a history entry started after the clock went back may be evicted at once (`HistoryStore.Store.Start`,
  `HistoryRuns.StartAfterClockBack`);
- a catalogue with repeated identifiers gives a queue with repeats (`PoolRuns.ResetQueueExact`,
  `PoolRuns.RepeatedIdentifier`);
- a lease on an untrimmed target is recorded under a name that is not in the pool (`PoolRuns.TargetExact`,
  `PoolRuns.UntrimmedTarget`). This is about the pool's interface only: its two callers trim the header
  (internal/auth/request.go:135) or pass an account's own identifier (internal/auth/keepalive.go:58).

## Model

| member | source | states |
|---|---|---|
| `Pow.SolvePow` | pow/deepseek_pow.go:31-118 | for every challenge: a length other than 64 and a character that is no hexadecimal digit are reported; otherwise the answer is the least nonce below the difficulty such that the hexadecimal numeral of the hash of salt_expiry_nonce is the challenge in lower case, "no solution" exactly when there is none and no cancellation was seen, "cancelled" at a polled nonce with none found or polled before it |
| `Hex.DecodedReadsBack` | pow/deepseek_pow.go:35 | the numeral of the decoded bytes is the text in lower case |
| `Hex.NumeralDecodes` | pow/deepseek_pow.go:35 | the numeral of any bytes decodes to those bytes |
| `Hex.HexExactly` | pow/deepseek_pow.go:35 | texts of even length decode exactly when they have only hexadecimal digits, of either case |
| `Pow.TryNonce` | pow/deepseek_pow.go:70-115 | the pre-absorbed state, the tail and the one or two padded blocks decide a nonce exactly as hashing prefix and numeral from scratch does, for every prefix length |
| `Pow.AbsorbTail` | pow/deepseek_pow.go:82-112 | absorbing tail and digits as one block, or two when they reach past 135 bytes, equals absorbing their padding |
| `Pow.HashAfterPrefix` | pow/deepseek_pow.go:46-59 | hashing prefix plus digits equals continuing from the absorbed whole blocks of the prefix |
| `Pow.PadAfterBlocks` | pow/deepseek_pow.go:46-59 | padding commutes with setting whole blocks aside |
| `Pow.WriteDecimal` | pow/deepseek_pow.go:70-82 | the digit loop leaves the decimal numeral of the nonce at the end of the 20-byte buffer |
| `Pow.DecimalReadsBack` | pow/deepseek_pow.go:70-82 | the numeral read back is the nonce, so different nonces give different messages |
| `Pow.FormatReadsBack` | pow/deepseek_pow.go:25-27 | the numeral of the expiry, with its sign, reads back as the expiry |
| `Pow.DigestMatches` | pow/deepseek_pow.go:39-44 | comparing four words with the four decoded target words is comparing the 32-byte digests |
| `DeepSeekHash.KeccakF23` | pow/deepseek_hash.go:18-123 | the unrolled rounds overwrite the array with the permuted lanes |
| `DeepSeekHash.DeepSeekHashV1` | pow/deepseek_hash.go:125-153 | the block loop, the padded last block and the output loop compute the hash of the message |
| `DeepSeekHash.XorInto` | pow/deepseek_hash.go:131-133 | XORs the 17 little-endian words of a block into the first 17 lanes and leaves the rest |
| `DeepSeekHash.MarkEnd` | pow/deepseek_hash.go:138-141 | sets the 0x06 and 0x80 marks, which may share a byte |
| `DeepSeekHash.AbsorbWhole` | pow/deepseek_pow.go:47-56 | absorbs the whole blocks of the data and returns where they end |
| `DeepSeekHash.AbsorbAppend` | pow/deepseek_hash.go:125-153 | absorbing whole blocks one part after the other is absorbing them together |
| `KeccakRefinement.ThetaRefines` | pow/deepseek_hash.go:26-60 | on every state the theta lines are algorithm 1 of section 3.2.1 of FIPS 202 |
| `KeccakRefinement.RhoPiRefines` | pow/deepseek_hash.go:62-86 | the rotated copies are rho and pi of sections 3.2.2 and 3.2.3, with the offsets the walk of algorithm 2 gives |
| `KeccakRefinement.ChiRefines` | pow/deepseek_hash.go:88-112 | the AND-NOT lines are chi of section 3.2.4 |
| `KeccakRefinement.IotaRefines` | pow/deepseek_hash.go:114 | the XOR of the round constant is iota of section 3.2.5 |
| `KeccakRefinement.ConstantRefines` | pow/deepseek_hash.go:7-14 | every constant of the table is the one the shift register of algorithm 5 yields, bit by bit |
| `KeccakRefinement.RoundsRefine` | pow/deepseek_hash.go:25-115 | rounds 1 to r keep lanes and state array in step |
| `KeccakRefinement.PermuteRefines` | pow/deepseek_hash.go:18-123 | the permutation is KECCAK-p[1600, 23] of section 3.3 on every state |
| `KeccakRefinement.AbsorbRefines` | pow/deepseek_hash.go:129-136 | absorbing bytes into lanes is absorbing bits into the state string (algorithm 8) |
| `KeccakRefinement.PadRefines` | pow/deepseek_hash.go:138-141 | the 0x06 .. 0x80 byte padding is the suffix 01 followed by pad10*1 (sections 5.1, 6.1 and B.2), for every length |
| `KeccakRefinement.SpongeRefines` | pow/deepseek_hash.go:125-153 | the hash is a sponge over any implemented permutation |
| `KeccakRefinement.HashIsSponge` | pow/deepseek_hash.go:125-153 | for every message the hash is the 256-bit sponge of section 4 over KECCAK-p[1600, 23] with rate 1088 and the SHA3-256 padding |
| `Bits.RotationMovesBits` | pow/deepseek_hash.go:16 | rotl64 moves bit z to bit z + k modulo 64 |
| `Bits.StoreLoad` | pow/deepseek_hash.go:147-151 | a word stored little-endian is loaded back |
| `Bits.LoadStore` | pow/deepseek_hash.go:131-133 | eight bytes loaded little-endian are stored back |
| `Pool.NewMemoryLookup` | internal/account/lookup.go:21-33 | the filtered list and the map by identifier |
| `Pool.MergedQueue` | internal/account/pool_core.go:115-131 | the merged queue: survivors in their order, then newcomers, as the functions whose properties SyncKeeps proves |
| `Pool.Pool.constructor` | internal/account/pool_core.go:34-47 | a new pool is a blank one after Reset |
| `Pool.Pool.Reset` | internal/account/pool_core.go:49-83 | the whole new state after a reset |
| `Pool.Pool.SyncAccounts` | internal/account/pool_core.go:87-144 | the whole new state after a resync |
| `Pool.Pool.RemoveAccount` | internal/account/pool_core.go:146-161 | the whole new state after dropping an account |
| `Pool.Pool.Release` | internal/account/pool_core.go:163-180 | the whole new state after a release; PoolWakes says whom it wakes |
| `Pool.Pool.Acquire` | internal/account/pool_acquire.go:9-13 | the account chosen and the whole new state |
| `Pool.Pool.TryAcquire` | internal/account/pool_acquire.go:66-81 | the queue scan leases the first eligible account |
| `Pool.Pool.AcquireOrPark` | internal/account/pool_acquire.go:15-47 | one pass of AcquireWait under the lock: lease, refuse or park a new waiter |
| `Pool.Pool.BumpQueue` | internal/account/pool_acquire.go:83-92 | moves the account to the end of the queue |
| `Pool.Pool.CanAcquireID` | internal/account/pool_limits.go:61-72 | answers whether both limits allow one more lease |
| `Pool.Pool.CurrentInUse` | internal/account/pool_limits.go:74-80 | the loop over the map, in any order, yields the sum |
| `Pool.Pool.CanQueueNow` | internal/account/pool_waiters.go:3-19 | answers whether a request may wait |
| `Pool.Pool.NotifyWaiter` | internal/account/pool_waiters.go:21-28 | closes the first waiter and takes it off the list |
| `Pool.Pool.RemoveWaiter` | internal/account/pool_waiters.go:30-39 | takes a waiter off the list; says whether it was there |
| `Pool.Pool.DrainWaiters` | internal/account/pool_waiters.go:41-46 | closes all waiters in order |
| `Pool.Pool.ApplyRuntimeLimits` | internal/account/pool_limits.go:11-31 | the whole new state after new limits |
| `PoolRuns.NewPoolRuns` | internal/account/pool_core.go:34-180 | in every interleaving from a new pool with distinct identifiers: 1 <= inUse[id] <= the per-account limit, leases and queue within the lookup, no duplicate in the queue, the in-use sum within a positive global limit, waiters ordered and unclosed |
| `PoolRuns.RunKeeps` | internal/account/pool_core.go:34-180 | every run of critical sections keeps that invariant |
| `PoolRuns.SyncKeeps` | internal/account/pool_core.go:87-144 | a resync keeps it, also when the default global limit shrinks |
| `PoolRuns.SharedLimit` | internal/account/pool_limits.go:42-50 | leases on the surviving accounts never exceed count times the per-account limit |
| `PoolRuns.DistinctLookup` | internal/account/lookup.go:21-33 | a catalogue allows a duplicate-free reset exactly when its identifiers are distinct |
| `PoolRuns.ResetQueueExact` | internal/account/pool_core.go:49-83 | Reset leaves a proper queue exactly when the listed identifiers are distinct |
| `PoolRuns.RepeatedIdentifier` | internal/account/pool_core.go:49-83 | two accounts with one identifier leave it twice in the queue |
| `PoolRuns.TargetExact` | internal/account/pool_acquire.go:49-64 | a targeted lease is recorded under a listed identifier exactly when the target was trimmed |
| `PoolRuns.UntrimmedTarget` | internal/account/pool_acquire.go:49-64 | a target with a blank in front leases an account under a name that is not listed |
| `PoolRuns.ApplyLimitsExact` | internal/account/pool_limits.go:11-31 | new limits keep the lease bounds exactly when the per-account limit given covers the most-leased account and the global limit given, if positive, covers all leases; a derived global limit is never too small |
| `PoolRuns.AcquireThenRelease` | internal/account/pool_acquire.go:49-92 | a release gives back what the acquire took |
| `PoolRuns.FailsOnlyWhenNoneEligible` | internal/account/pool_acquire.go:66-81 | an untargeted acquire fails exactly when no queued account is eligible |
| `PoolRuns.WaiterSafety` | internal/account/pool_waiters.go:3-46 | no channel is closed twice, no listed waiter is closed, waiters are distinct, the next one woken is the oldest |
| `PoolWakes.StepWakes` | internal/account/pool_core.go:34-180 | a release that gives a lease back closes exactly the channel of the request parked longest, a removal, resync or reset closes all in order, no other step closes any; the others stay parked in order |
| `PoolWakes.LimitsWake` | internal/account/pool_limits.go:11-31 | new limits wake exactly the request parked longest |
| `PoolWakes.CancelDrops` | internal/account/pool_waiters.go:30-39 | a request that gives up takes off itself and nobody else |
| `PoolWakes.NobodyForgotten` | internal/account/pool_waiters.go:3-46 | in every run a parked request is still parked, or its channel was closed, or it gave up |
| `PoolWakes.ParkedIsServed` | internal/account/pool_acquire.go:15-47 | a request parked alone, when the holder of a queued account releases it and nobody acquires in between: its channel is closed and its next pass finds an account, that very one if it named it or if it is the only one free |
| `PoolWakes.AcquireFailsExactly` | internal/account/pool_acquire.go:66-81 | an untargeted acquire fails exactly when the global limit is reached or every queued account is excluded or at its own limit |
| `PoolWakes.TargetFailsExactly` | internal/account/pool_acquire.go:49-64 | a named account is leased exactly when it is listed, not excluded, not at its limit, and the global limit is not reached |
| `PoolWakes.ParksExactly` | internal/account/pool_waiters.go:3-19 | a request that finds no account parks exactly when it names none or a listed one that is not excluded, and the list of waiters is not full |
| `PoolOrder.TokensFirst` | internal/account/pool_core.go:49-83 | accounts with a token come first in the sorted list |
| `PoolOrder.SortStable` | internal/account/pool_core.go:49-83 | within those with a token and within those without, the listed order stays |
| `PoolOrder.SurvivorsKeepOrder` | internal/account/pool_core.go:115-124 | survivors of a resync keep their order |
| `PoolOrder.NewcomersInOrder` | internal/account/pool_core.go:124-131 | newcomers follow in the order of the sorted accounts |
| `PoolOrder.LastWins` | internal/account/lookup.go:21-33 | of accounts with one identifier the lookup finds the last |
| `PoolOrder.LimitAfterSync` | internal/account/pool_core.go:87-144 | without a configured global limit a resync allows as many leases as the listed accounts together |
| `PoolOrder.LimitAfterReset` | internal/account/pool_core.go:49-83 | and so does a reset |
| `PoolOrder.LimitsApplied` | internal/account/pool_limits.go:11-31 | the limits in force after new settings, for every given value |
| `PoolOrder.RoomIsUsed` | internal/account/pool_acquire.go:66-81 | as long as fewer leases are out than the queued accounts and the global limit allow, an acquire that excludes nothing succeeds |
| `PoolRuns.StepMoves` | internal/account/pool_acquire.go:66-92 | a step that spares an account never moves it back, and a successful untargeted acquire of another moves it forward |
| `PoolRuns.IndexNeverGrows` | internal/account/pool_acquire.go:49-92 | until it is picked, a spared account has moved forward at least once for each successful untargeted acquire |
| `PoolRuns.BoundedFairness` | internal/account/pool_acquire.go:49-92 | an account at index k that stays eligible is picked within k + 1 successful untargeted acquires, whatever comes between |
| `Lease.AcquireWait` | internal/account/pool_acquire.go:15-47 | what it returns and the pool it leaves are those of the run of waiting: leased at once, refused when it may not wait, woken and tried again, or out of time; other requests act while it is parked: they acquire, release, give up, resync the pool and drop accounts, leased ones too. Success holds exactly one more lease on a permitted account, failure none; never are more leases on record than held, and exactly as many for each account that is not dropped while leased |
| `Lease.ReleasedToWaiter` | internal/account/pool_acquire.go:15-47 | a waiting request is given the account that another one releases while everything else is taken |
| `Lease.AcquireManaged` | internal/auth/request.go:193-239 | terminates, with any steps of other requests in between; every attempt before the last got an account and failed to log in to it; a request is returned exactly for an account that the last attempt got and logged in to, with exactly one lease; none is returned only when as many accounts failed as are listed, the named one failed, or the last wait gave none, and then it holds no lease |
| `Lease.TriedFailed` | internal/auth/request.go:193-239 | the accounts tried are exactly those that an earlier attempt got and failed to log in to |
| `Lease.SwitchAccount` | internal/auth/request.go:332-362 | terminates because tried accounts grow; every attempt before the last leased an account and failed to log in to it; success means that the last one leased this account, not tried before and not the one given up, and logged in to it, with one lease; failure that it found none, and no lease |
| `Lease.ReleaseAfterFailedSwitch` | internal/auth/request.go:371-378 | when no leased account was dropped, a release after a failed switch keeps the books balanced exactly when nobody else holds that account |
| `Lease.StolenLease` | internal/auth/request.go:332-378 | a concrete run: after a failed switch another request leases the account, and the release takes that lease |
| `Lease.NothingLeaks` | internal/auth/request.go:193-378 | whatever was dropped in between, when nobody holds a lease none is on record |
| `Lease.DroppedWhileLeased` | internal/auth/request.go:71-191 | a concrete run: an account that is dropped while leased and listed again is leased a second time, with one lease on record for two holders |
| `UploadCache.Shared.Enter` | internal/privatecontext/upload_cache.go:64-89 | the first critical section: hit, join or lead, and the new state |
| `UploadCache.Shared.Finish` | internal/privatecontext/upload_cache.go:93-101 | the second critical section of the leader and the new state; UploadHits says what it stores |
| `UploadCache.RunKeeps` | internal/privatecontext/upload_cache.go:55-108 | every interleaving of callers keeps the invariant of calls, callers and entries |
| `UploadCache.SingleFlight` | internal/privatecontext/upload_cache.go:55-108 | at most one upload runs per key |
| `UploadCache.ClosedOnce` | internal/privatecontext/upload_cache.go:87-101 | each call's channel is closed at most once, exactly when its outcome is set, and an open call has a leader |
| `UploadCache.WaitersGetTheLeadersOutcome` | internal/privatecontext/upload_cache.go:74-107 | callers that shared a call returned one outcome, for the same key |
| `UploadCache.HitsAreBacked` | internal/privatecontext/upload_cache.go:64-71 | a hit is the file of a successful upload for that key within its time to live |
| `UploadHits.UploadedOnce` | internal/privatecontext/upload_cache.go:55-108 | in every interleaving, once a leader of a key has completed with a usable file, every later arrival for the key within twenty minutes returns that very file from the cache, and no further call for the key is made |
| `UploadHits.CompletedHolds` | internal/privatecontext/upload_cache.go:93-101 | completing with a usable file stores it for twenty minutes |
| `UploadHits.FailedStoresNothing` | internal/privatecontext/upload_cache.go:93-101 | completing with an error or without a usable file stores nothing |
| `Markup.InsideMarkdownFence` | internal/toolcall/toolcalls_parse_markup.go:267-289 | the loop over lines computes the open fence of the fragment |
| `Markup.FindTagEnd` | internal/toolcall/toolcalls_parse_markup.go:291-310 | the loop finds the first > outside quotes, or none |
| `Markup.CDATAEnd` | internal/toolcall/toolcalls_parse_markup.go:228-252 | the end found lies within the text |
| `Markup.SkipAt` | internal/toolcall/toolcalls_parse_markup.go:209-226 | skipping an ignored section moves forward and stays within the text |
| `Markup.ScanTag` | internal/toolcall/toolcalls_scan.go:141-193 | a scanned tag starts where asked and ends strictly later, inside the text |
| `Markup.FindTag` | internal/toolcall/toolcalls_scan.go:95-112 | the tag found is in range and is what the scanner reads there |
| `Markup.FindToolMarkupTag` | internal/toolcall/toolcalls_scan.go:95-112 | the loop is that first tag |
| `Markup.MatchingClose` | internal/toolcall/toolcalls_scan.go:114-139 | a matching close is a closing tag of the same name, strictly after the opening tag |
| `Markup.FindMatchingClose` | internal/toolcall/toolcalls_scan.go:114-139 | the depth-counting loop is that close |
| `Markup.FindFirstNamed` | internal/toolstream/tool_sieve_xml_scan.go:5-21 | the loop finds the first tag of a name and direction |
| `MarkupReads.EndIsFirst` | internal/toolcall/toolcalls_parse_markup.go:291-310 | a tag ends at the first > that is outside single and double quotes, by the quotes open at each position |
| `MarkupReads.KnownTags` | internal/toolcall/toolcalls_scan.go:95-193 | the four plain opening tags and their canonical names |
| `MarkupReads.CommentHides` | internal/toolcall/toolcalls_parse_markup.go:209-226 | whatever a closed comment holds is skipped |
| `MarkupReads.OpenCommentHides` | internal/toolcall/toolcalls_parse_markup.go:209-226 | a comment that is not closed hides the rest |
| `MarkupReads.SectionEnds` | internal/toolcall/toolcalls_parse_markup.go:228-252 | a CDATA section ends at its first close marker when that is outside Markdown fences and a closing tag follows |
| `MarkupReads.FenceInSection` | internal/toolcall/toolcalls_parse_markup.go:228-252 | a close marker inside a Markdown fence does not end it |
| `MarkupReads.LaterCloseCounts` | internal/toolcall/toolcalls_parse_markup.go:228-252 | nor does one without a closing tag behind it when a later one has one |
| `MarkupReads.OnlyCloseCounts` | internal/toolcall/toolcalls_parse_markup.go:228-252 | but it does when there is no later one |
| `MarkupReads.OpenSectionHides` | internal/toolcall/toolcalls_parse_markup.go:228-252 | a CDATA section without a close marker hides the rest |
| `Fence.Simulate` | internal/toolstream/tool_sieve_state.go:105-166 | the byte loop is a left fold of the fence automaton |
| `Fence.AfterAppend` | internal/toolstream/tool_sieve_state.go:105-166 | simulating a text in two parts equals simulating it whole, at every split |
| `FenceByLine.ReadsLineByLine` | internal/toolstream/tool_sieve_state.go:105-169 | read character by character, a text of whole lines leaves open exactly the fences of the line-by-line reading, with nothing pending, at a line start |
| `FenceByLine.ClosedExactly` | internal/toolstream/tool_sieve_state.go:171-200 | an open fence is closed by a marker of its kind that is at least as long, and by no other |
| `Fence.AfterReachable` | internal/toolstream/tool_sieve_state.go:105-200 | ticks and tildes are never both pending, markers have size at least 3, adjacent markers of one type shrink towards the top |
| `Fence.NotedReachable` | internal/toolstream/tool_sieve_state.go:49-103 | the same for the carried state after any pieces of text |
| `Fence.NotedExact` | internal/toolstream/tool_sieve_state.go:49-58 | skipping a text that noteText skips leaves the automaton where feeding it would, exactly when the text is empty, or nothing is pending and it ends at the start of a line exactly if it began there (a line break makes that so, a vertical tab or form feed unmakes it) |
| `Fence.RunExact` | internal/toolstream/tool_sieve_state.go:49-103 | over any run, the carried state is after every text that of an automaton fed everything exactly when every skipped text is inert in that sense |
| `Fence.AgreesAgain` | internal/toolstream/tool_sieve_state.go:49-103 | a concrete run in which a skipped text is not inert and the two states agree again at the end, so that the condition is exact for the whole run and not for its end alone |
| `Fence.ForgottenLineBreak` | internal/toolstream/tool_sieve_state.go:49-58 | a concrete run in which a line break that arrives alone hides the fence after it |
| `SieveScan.StandardOk` | internal/toolstream/tool_sieve_core.go:203-418 | every detector of the source returns no position or one inside the text, for any tools and parser |
| `SieveScan.SplitSafe` | internal/toolstream/tool_sieve_core.go:159-201 | what is released and what is held make up the text |
| `SieveXml.TrimFenceCuts` | internal/toolstream/tool_sieve_jsonscan.go:5-27 | what is trimmed is nothing, or an opening fence with no or a json header on the left and a closing fence on the right |
| `SieveXml.ScanWrappers` | internal/toolstream/tool_sieve_xml.go:9-94 | the scan over wrapper tags computes the verdict: first parsing block, else waiting for an open one, else the first rejected one, else the bare-invoke repair |
| `SieveXml.ConsumeXmlToolCapture` | internal/toolstream/tool_sieve_xml.go:9-98 | prefix, calls, suffix and readiness are those of the verdict |
| `SieveXml.ConsumeToolCapture` | internal/toolstream/tool_sieve_core.go:414-446 | the same for the whole capture decision |
| `SieveXml.Accounts` | internal/toolstream/tool_sieve_xml.go:9-98 | prefix, dropped pieces and suffix make up the capture, and only the prefix is emitted |
| `SieveXml.VerdictJustified` | internal/toolstream/tool_sieve_xml.go:44-66 | every dropped piece is a block that parses, a broken call, or half of a wrapping fence |
| `SieveXml.ConsumeOk` | internal/toolstream/tool_sieve_core.go:414-446 | an accepted block has the calls of the parser on that very block, also after the wrapper repair |
| `SieveXml.Suffix` | internal/toolstream/tool_sieve_xml.go:44-98 | the suffix is strictly shorter than the capture |
| `Sieve.Turn` | internal/toolstream/tool_sieve_core.go:23-85 | an iteration that goes on makes the buffers smaller, or keeps their size and starts a capture: the termination measure |
| `Sieve.InputAccounted` | internal/toolstream/tool_sieve_core.go:9-157 | for any chunking, after Flush: both buffers are empty, every piece of the input was emitted in order or dropped for a stated reason, and the content is a subsequence of the input |
| `Sieve.PlainTextUnchanged` | internal/toolstream/tool_sieve_core.go:9-157 | without a capture and without a malformed tail the content is the input |
| `Sieve.CallsDelivered` | internal/toolstream/tool_sieve_core.go:16-48 | call events carry the calls of finished blocks in order, all of them exactly when no chunk finished a second block before the first was sent |
| `Sieve.OverwritesExactly` | internal/toolstream/tool_sieve_core.go:43-48 | a chunk overwrites waiting calls exactly when it finishes more than one block |
| `SieveBlocks.BlocksOfChunk` | internal/toolstream/tool_sieve_core.go:16-90 | a chunk finishes no more blocks than the buffered text with the chunk behind it has closing tool_calls tags, and one more if a rest of that text parses into calls as it stands |
| `SieveBlocks.NothingOverwritten` | internal/toolstream/tool_sieve_core.go:16-90 | so a chunk whose text leaves room for at most one block overwrites no calls |
| `SieveBlocks.AllCallsDelivered` | internal/toolstream/tool_sieve_core.go:16-140 | when that holds for every chunk and for the end of the stream, the calls of every finished block are sent, in order |
| `SieveTwoBlocks.TwoBlocksInOneChunk` | internal/toolstream/tool_sieve_core.go:16-90 | for every parser that finds calls in two one-line wrappers: sent as one chunk to a fresh sieve with the detectors of the source, the calls of the first are overwritten, and to the end of the stream only those of the second are sent |
| `SieveTwoBlocks.OneClosingTag` | internal/toolstream/tool_sieve_core.go:16-90 | for every parser that finds calls in a one-line wrapper and in a closed bash fence: the wrapper with the fence right behind it has one closing tag, and only the calls of the fence are ever sent |
| `Sieve.FencesFollowContent` | internal/toolstream/tool_sieve_state.go:49-103 | the carried fence state is the noteText fold over the content sent, and reachable; when every skipped piece is inert it is the state after that content |
| `Sieve.FeedAllBooks` | internal/toolstream/tool_sieve_core.go:9-88 | the books balance after every chunk |
| `Sieve.SanitizeLooseCdata` | internal/toolcall/toolcalls_markup.go:143-182 | strips the first opener that has no close after it, and nothing else |
| `Sieve.OpenerRestored` | internal/toolcall/toolcalls_markup.go:173-175 | putting the stripped opener back gives the original text |
| `SievePieces.OpenerBack` | internal/toolstream/tool_sieve_core.go:117-128 | the ledger of the repaired capture, with the opener put back, is a ledger of the capture that emits the same text and calls |
| `SievePieces.NothingDropped` | internal/toolstream/tool_sieve_core.go:9-157 | everything is emitted exactly when every dropped piece is empty |
| `Sieve.State.ProcessChunk` | internal/toolstream/tool_sieve_core.go:9-88 | the loop and its events are those of the run function, for any detectors that stay in range |
| `Sieve.State.Flush` | internal/toolstream/tool_sieve_core.go:90-157 | the same for the end of the stream |
| `SieveCuts.AnyCutting` | internal/toolstream/tool_sieve_core.go:16-140 | a text that the detectors see through, however it is cut into chunks: its calls are sent once, and nothing else |
| `SievePieceByPiece.BlockInPieces` | internal/toolstream/tool_sieve_core.go:16-140 | with the detectors of the source, for every parser that finds calls in a one-line wrapper and in none of its beginnings: however the wrapper is cut into chunks, no content is sent, and exactly its calls are, once |
| `SieveFencePieces.FenceInPieces` | internal/toolstream/tool_sieve_core.go:16-140 | the same for a closed bash fence |
| `SievePlain.OrdinaryTextAtOnce` | internal/toolstream/tool_sieve_core.go:60-140 | chunks without angle brackets, fence marks or a beginning of the MiniMax marker are each sent as they arrive, unchanged |
| `SievePieceByPiece.LetGoHoldsNoOpenWrapper` | internal/toolstream/tool_sieve_xml.go:102-118 | a capture that is let go, as text or with a block dropped from it, holds no opening tool_calls tag without its close |
| `SieveForms.StartsOutsideFences` | internal/toolstream/tool_sieve_core.go:203-232 | a capture never starts inside a code fence |
| `SieveForms.HoldsOutsideFences` | internal/toolstream/tool_sieve_core.go:159-201 | nor is text held back there |
| `SieveForms.WrappingFenceGoes` | internal/toolstream/tool_sieve_jsonscan.go:5-27 | a block between an opening json or bare fence and a closing one loses both marks |
| `SieveForms.OtherFenceStays` | internal/toolstream/tool_sieve_jsonscan.go:5-27 | with any other word behind the opening mark both stay |
| `SieveForms.ClosedFenceStays` | internal/toolstream/tool_sieve_jsonscan.go:5-27 | a mark that closes an earlier one stays |
| `SieveForms.BareInvokeJudged` | internal/toolstream/tool_sieve_xml.go:79-97 | an invoke element without an opening wrapper before it, and a closing one behind it, is judged with the wrapper put in front |
| `SieveForms.MalformedExactly` | internal/toolstream/tool_sieve_xml.go:151-165 | a tail is malformed exactly when it has the MiniMax marker, a singular tool_call tag, or an invoke opening twice |
| `PumpRuns.NothingLostOrReordered` | internal/sse/stream.go:130-361 | for any lines and any schedule of timer firings, the sequence of (thinking or not, character) sent is the one parsed, the detection text is preserved, nothing stays buffered |
| `PumpRuns.TypesPreserved` | internal/sse/stream.go:130-361 | with one kind besides thinking, the sequence of (type, character) is preserved |
| `PumpFlow.FlushConserves` | internal/sse/stream.go:130-190 | a flush moves buffered thinking, then buffered text, to the output |
| `PumpFlow.AddPartConserves` | internal/sse/stream.go:258-272 | buffered thinking always precedes buffered text |
| `PumpFlow.StepConserves` | internal/sse/stream.go:192-304 | every line and every timer firing conserves the stream |
| `PumpTimer.TimerRunsWhileBuffered` | internal/sse/stream.go:92-128 | between events the timer runs exactly when something is buffered |
| `PumpTimer.StopOvertakesThinking` | internal/sse/stream.go:198-248 | a stop marker overtakes buffered thinking exactly when nothing else is buffered |
| `PumpTimer.OvertakenThinking` | internal/sse/stream.go:198-304 | a concrete run of three lines after which the stop marker is sent while a thinking character is still buffered |
| `PumpTimer.StopsMatch` | internal/sse/stream.go:198-248 | one stop marker is sent for each finishing line |
| `PumpNotices.NoticesReachReader` | internal/sse/stream.go:198-304 | every error message and filter notice reaches the reader, once and in order, with a result that ends the answer and carries nothing else |
| `PumpNotices.LittleKeptBack` | internal/sse/stream.go:130-304 | whatever has arrived, fewer than sixteen characters of text are kept back, and never a line break |
| `PumpNotices.StepCarries` | internal/sse/stream.go:198-304 | results carry the type the last line left, and the first one after a line with a message identifier carries that |
| `Pump.Pump.FlushBuffer` | internal/sse/stream.go:130-190 | the closure computes the flush of the machine |
| `Pump.Pump.ProcessLine` | internal/sse/stream.go:192-304 | the closure computes the step of the machine |
| `Pump.Pump.Loop` | internal/sse/stream.go:306-353 | the event loop over a schedule, with the flush at the end |
| `Continue.ContinueState.Observe` | internal/deepseek/client/client_continue.go:183-208 | the state after a chunk is the fold of the signals the chunk carries, in order |
| `Continue.ContinueState.ObserveBatchPatches` | internal/deepseek/client/client_continue.go:241-271 | the loop folds the signals of the patches in order |
| `Continue.ContinueState.SetStatus` | internal/deepseek/client/client_continue.go:273-285 | a non-blank status is noted; a finishing one marks the round |
| `Continue.ContinueState.ShouldContinue` | internal/deepseek/client/client_continue.go:290-303 | answers whether another round may be asked for |
| `ContinueSignals.StatusIsNoted` | internal/deepseek/client/client_continue.go:210-288 | a text at one of the four status paths, slashes aside, is noted and marks the round when it says so; at any other path it changes nothing |
| `ContinueSignals.AutoContinueIsNoted` | internal/deepseek/client/client_continue.go:210-222 | the mark at either auto-continue path counts when true, and only there |
| `ContinueSignals.SlashesIgnored` | internal/deepseek/client/client_continue.go:210-222 | slashes around a path do not matter |
| `ContinueSignals.BatchStatus` | internal/deepseek/client/client_continue.go:241-271 | a patch in a batch under the response counts below it |
| `ContinueSignals.IdIsNoted` | internal/deepseek/client/client_continue.go:184-208 | a positive message identifier is noted |
| `ContinueSignals.ResponseIsNoted` | internal/deepseek/client/client_continue.go:224-239 | a response object tells its message, status and mark, under v and under message |
| `ContinueSignals.DataLineIsRead` | internal/deepseek/client/client_continue.go:135-182 | a data line is observed with what it carries and passed on, the end marker neither |
| `ContinueSignals.ContinuedAfterStatus` | internal/deepseek/client/client_continue.go:273-305 | after a round that ended with a status, the answer is continued exactly when it is incomplete or the auto-continue mark, and session and message are known |
| `Splice.StreamBody` | internal/deepseek/client/client_continue.go:135-181 | writes every non-blank, non-[DONE] line once with a newline, reports [DONE], and observes every data line |
| `Splice.PumpAutoContinue` | internal/deepseek/client/client_continue.go:97-129 | at most maxRounds continue calls, each after a round that may continue and for its message; the output is the lines of every round in order, then one [DONE] exactly when the run is free of errors and the last round had one |
| `Splice.ReaderSees` | internal/deepseek/client/client_continue.go:97-181 | cut into lines again, the output is exactly the lines passed on and at most one end marker, at the end |
| `Splice.ContinuedExactly` | internal/deepseek/client/client_continue.go:273-303 | a round is continued exactly when it gave no finishing status, its last status is incomplete or auto-continue, and session and message are known |
| `Splice.SignalsSay` | internal/deepseek/client/client_continue.go:210-285 | after a round the state holds the last status, the last message and whether a finishing status was seen |
| `Splice.LinesRejoin` | internal/deepseek/client/client_continue.go:136-149 | joining the lines of a text gives the text back |
| `Splice.LinesOfConcat` | internal/deepseek/client/client_continue.go:136-149 | cutting a concatenation of lines gives the lines back |
| `History.RankingUnique` | internal/chathistory/store.go:519-532 | the sorted index is determined by the details, whatever order the map yields |
| `History.InsertRanks` | internal/chathistory/store.go:524-532 | sorting in a summary of a new revision keeps the strict order |
| `History.AsManyAsDetails` | internal/chathistory/store.go:519-554 | the index has one summary for each detail |
| `History.KeptExactly` | internal/chathistory/store.go:540-552 | an entry is among the top n exactly when fewer than n entries rank before it |
| `HistoryStore.Store.RebuildIndex` | internal/chathistory/store.go:519-554 | strict order, one summary per detail, never above a nonzero limit, exactly the top entries kept, evicted ones marked for removal |
| `HistoryStore.Store.Save` | internal/chathistory/store.go:474-517 | whichever file operation fails, disk and memory differ only at dirty or deleted identifiers; success makes them equal with both sets empty, and happens exactly when no operation fails |
| `HistoryStore.Store.constructor` | internal/chathistory/store.go:144-162 | a fresh store is valid although its bootstrap write may fail |
| `HistoryStore.Load` | internal/chathistory/store.go:415-440 | fails exactly when a file of the index is missing; otherwise gives a store with the entries on disk, under the limit of the index, also when files are newer than the index |
| `HistoryStore.ReopenedIsSaved` | internal/chathistory/store.go:415-440 | opening a saved store gives back the same entries and index |
| `HistoryStore.Store.Start` | internal/chathistory/store.go:227-264 | keeps the store valid; the new revision is larger; the entry is kept exactly when fewer entries than the limit were created later |
| `HistoryStore.FreshKept` | internal/chathistory/store.go:239-259 | while the clock does not go back, a started entry is kept and ranks first |
| `HistoryStore.Store.Update` | internal/chathistory/store.go:266-312 | keeps the store valid; exactly the named entry changes, then the limit applies |
| `HistoryStore.Store.Delete` | internal/chathistory/store.go:314-338 | keeps the store valid; exactly the named entry goes |
| `HistoryStore.Store.Clear` | internal/chathistory/store.go:340-359 | keeps the store valid and empties it |
| `HistoryStore.Store.SetLimit` | internal/chathistory/store.go:361-380 | keeps the store valid under the new limit, or changes nothing for an unsupported one |
| `HistoryStore.Store.Get` | internal/chathistory/store.go:211-225 | returns the detail filed under the trimmed identifier |
| `HistoryStore.Store.NextRevisionNumber` | internal/chathistory/store.go:556-563 | revisions strictly increase whatever the clock says |
| `HistoryUpdates.NewEntry` | internal/chathistory/store.go:227-264 | what a new entry says |
| `HistoryUpdates.LastTextsStay` | internal/chathistory/store.go:266-312 | after any updates status, reasoning and content are those of the last update that gives them |
| `HistoryUpdates.LastOutcome` | internal/chathistory/store.go:266-312 | error, codes, finish reason, revision and time are those of the last update |
| `HistoryUpdates.StartStays` | internal/chathistory/store.go:266-312 | what was recorded at the start stays |
| `HistoryUpdates.CompletedWhen` | internal/chathistory/store.go:266-312 | an entry is completed at the time of its last completing update |
| `HistoryUpdates.UsageStays` | internal/chathistory/store.go:266-312 | the usage is the last one given |
| `HistoryUpdates.PreviewShows` | internal/chathistory/store.go:587-605 | the preview shows the answer, else the reasoning, the error or the question, cut at 160 characters |
| `HistoryUpdates.SummaryAgrees` | internal/chathistory/store.go:565-585 | the index tells of an entry what the entry says |
| `HistoryUpdates.SupportedLimits` | internal/chathistory/store.go:28-33 | the supported limits are 0, 10, 20 and 50, and 20 is the default |
| `HistoryRuns.Apply` | internal/chathistory/store.go:227-380 | every call on a valid store is a step of the run relation, which fixes the new entries and index, which details are left to write and to remove, and whether all is saved, from the number of file operations that succeed |
| `HistoryRuns.RunKeeps` | internal/chathistory/store.go:227-563 | in every run of calls the index lists the retained entries once each in strict order within the limit, the file of an identifier differs from its entry only where it is still to be written or removed, revisions grow, and a call whose file operations suffice leaves files and index as in memory with nothing pending; three more than there are entries and left-over removals always suffice |
| `HistoryRuns.StartedAlwaysKept` | internal/chathistory/store.go:227-264 | in every run in which the clock does not go back, each started entry is kept by its call and ranks first |
| `HistoryRuns.StartAfterClockBack` | internal/chathistory/store.go:227-264 | a concrete run: with the clock set back, a full store evicts the entry it has just started |
| `JsonRepair.Repair` | internal/toolcall/toolcalls_json_repair.go:8-54 | the walk with a jumping index computes the repaired text |
| `JsonRepair.OnlyAllowedEscapes` | internal/toolcall/toolcalls_json_repair.go:8-54 | the output has the units of the input in order, each stray backslash now escaped, so only escapes of section 7 of RFC 8259 remain |
| `JsonRepair.RepairedIsIdentity` | internal/toolcall/toolcalls_json_repair.go:8-54 | a text is left alone exactly when it is well escaped |
| `JsonRepair.RepairIdempotent` | internal/toolcall/toolcalls_json_repair.go:8-54 | repairing twice is repairing once |
| `JsonRepair.LengthAtMostDoubles` | internal/toolcall/toolcalls_json_repair.go:8-54 | the text grows by one for each stray backslash, and at most doubles |
| `JsonRepair.EscapesStay` | internal/toolcall/toolcalls_json_repair.go:8-54 | the eight short escapes of JSON stay |
| `JsonRepair.CodePointStays` | internal/toolcall/toolcalls_json_repair.go:8-54 | so does a code point of four hexadecimal digits |
| `JsonRepair.StrayIsDoubled` | internal/toolcall/toolcalls_json_repair.go:8-54 | a backslash before any other character is doubled |
| `SchemaNormalize.Normalize` | internal/toolcall/toolcalls_schema_normalize.go:90-161 | the loops compute the normal form, and the flag is true exactly when it differs from the value |
| `SchemaNormalize.NormalHolds` | internal/toolcall/toolcalls_schema_normalize.go:90-161 | every position under a string-only schema ends as a string or null |
| `SchemaNormalize.NormalIsIdentity` | internal/toolcall/toolcalls_schema_normalize.go:90-161 | nothing changes exactly when that already holds |
| `SchemaNormalize.NormalIdempotent` | internal/toolcall/toolcalls_schema_normalize.go:90-161 | normalising twice is normalising once |
| `SchemaNormalize.ShapeKept` | internal/toolcall/toolcalls_schema_normalize.go:101-159 | containers that are not turned into strings keep their keys and lengths, and nothing else changes |
| `SchemaValidity.ValidIsUntouched` | internal/toolcall/toolcalls_schema_normalize.go:90-161 | arguments that their schema allows, by the meaning of const, enum, type, properties, additionalProperties and items in JSON Schema, are never changed |
| `SchemaValidity.ConstExactly` | internal/toolcall/toolcalls_schema_normalize.go:163-252 | a constant makes a schema string-only exactly when the schema allows only strings |
| `SchemaValidity.EnumExactly` | internal/toolcall/toolcalls_schema_normalize.go:163-252 | so does a non-empty enumeration |
| `SchemaValidity.TypeExactly` | internal/toolcall/toolcalls_schema_normalize.go:163-252 | a type name does exactly when the schema allows some string and nothing but strings and null |
| `SchemaValidity.TypesExactly` | internal/toolcall/toolcalls_schema_normalize.go:163-252 | and so does a list of type names |
| `SchemaValidity.AnyKeyword` | internal/toolcall/toolcalls_schema_normalize.go:163-252 | each of the three keywords counts by itself |
| `SchemaValidity.FieldBecomesString` | internal/toolcall/toolcalls_schema_normalize.go:101-130 | a field that the schema says is a string, by name or for all others, becomes its JSON text |
| `SchemaValidity.ElementBecomesString` | internal/toolcall/toolcalls_schema_normalize.go:130-159 | and so does an element |
| `Cdata.RoundTrip` | internal/prompt/tool_calls.go:317-325 | a reader that joins the CDATA sections (section 2.7 of XML 1.0) gets the original text back |

## Left out

- HTTP handlers, routing, SQL access, Clerk login and mail, proxies, TLS, the pool page, the JavaScript mirror and the test runner: input, output and presentation.
- Parsing of tool calls from a block (regular expressions, the XML decoder, JSON decoding, HTML unescaping): an arbitrary function in `SieveScan.Env`; name matching against the tool list is a field of `SieveScan.Tools`.
- Strings in the sieve, the streams and the stores are sequences of characters: byte offsets, invalid UTF-8 and Unicode case folding are not modelled; lower-casing and trimming are ASCII and lower-casing keeps positions. In `Pow` a character stands for one byte.
- SieveScan.SplitSafe: the find functions of tool_sieve_core.go and findToolCDATAEnd are recursive functions in place of their index loops; the scanners that find tags and closes keep their loops.
- Sieve.State: the incremental-delta fields of the sieve state, which ProcessChunk only resets, and the raw text kept beside pending calls, which nothing reads, are not modelled.
- Sieve.InputAccounted: nothing is claimed about the order between content and call events, or about different chunkings giving equal output.
- Pump.Pump.FlushBuffer: cancellation of the context while a result is being sent is left out.
- Pump.Pump.ProcessLine: cancellation and the branch with accumulation switched off are left out.
- Pump.Pump.Loop: the accumulation switch is on, as in the production configuration; cancellation of the context and read errors, which end a run early, are left out.
- Splice.StreamBody: failed writes to the pipe and cancellation are left out; a failed read of the body is modelled.
- Splice.PumpAutoContinue: failed writes to the pipe and cancellation are left out; failed reads and failed continue requests are modelled.
- PoolRuns.RunKeeps: the limit settings are fixed during a run, so ApplyRuntimeLimits is not a step; PoolRuns.ApplyLimitsExact says when it keeps the lease bounds. A release wakes one request, whether or not it can use the account that was freed; that every request which could use it is woken is not claimed.
- Lease.AcquireManaged: when accounts are dropped is up to the other requests: the clock of cooldowns, the classification of error messages, token persistence and the choice of a pool are left out.
- HistoryStore.Store.constructor: errors of the path and of creating the directories are left out.
- HistoryStore.Load: the JSON encoding of entries and the atomic rename are taken as exact, a file that cannot be read counts as missing, detail files that the index does not list, details with equal revisions and migration of the old file format are left out. After a load from files newer than their index, the operations are proved for a clock that has passed the revisions of those files.
- HistoryStore.Store.Save: the order in which detail files are removed and written is arbitrary. Crash consistency is not claimed.
- UploadCache.RunKeeps: the fields of an upload result other than its identifier and name, the hashing that makes a key, and uploads with an empty key, which share nothing.
- SchemaNormalize.Normalize: JSON values always encode; the index of schemas by tool name is left out.
- Rendering tool calls and parsing them back is left out, since the parser turns JSON-looking strings into values on purpose.
- BuildPowHeader and SolveAndBuildHeader: JSON and base64 around the answer.
