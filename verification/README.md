# Verified model of the game server's algorithms

This project models the parts of the C++ game server that compute something: the codec of requests
and save files, the push hub's protocol, the weekly ladder ("lunjian"), the two hand-written parsers,
the mail store with its scheduler, and the session cache. Code that works in place is modelled by
methods and classes over arrays and fields, proved against functions; protocols with several threads
are state machines whose theorems hold for every interleaving.

| files | subject |
|---|---|
| `Xxtea`, `XxteaVector`, `ByteDigits`, `WordCodec`, `Base64`, `Payload` | XXTEA in place on word arrays with a published test vector, the byte/word codec with its length trailer, base64, encrypted payloads |
| `Md5Counter`, `Md5`, `Md5Steps`, `Md5Vector` | streaming MD5: buffer, split counters, padding; the 64 operations on a block; a published digest |
| `SaveBlob`, `SaveCrypto`, `SaveEdit` | the `____` container, the dat.json keys, editing a save |
| `PushHub`, `HubRegistry`, `HubRoutes`, `HubHonesty`, `HubFlow`, `HubAnswers`, `Frames` | the hub as a state machine; its map and counter; wave routes; honest clients; what each request does; nothing gets lost; length-prefixed frames |
| `WeekClock`, `WeekPool`, `PoolServes` | week arithmetic and the weekly pool |
| `Loadouts`, `LoadoutSets`, `LoadoutChoices`, `FightData` | exclusive assignments, loadout requests and repair, what a choice stores, fight data and its rebuilding |
| `NpcNames`, `NpcTeams`, `Ladder`, `Collation`, `Quota`, `Searches`, `LadderServers` | computer-run fighters, the ladder table and its comparison of names, the daily quota and its searches |
| `JsonScan`, `Resp`, `Decimals` | the key-searching JSON scanner, the Redis protocol, decimal text |
| `MailKeys`, `Mail`, `MailServers`, `MailSteps`, `Scheduler`, `ScheduleFlow` | mail over Redis, sends and removals at the same time, scheduled mail, one pass of its loop |
| `Cache`, `Sessions`, `SessionSteps`, `SessionFlow` | the TTL cache, sessions, operations on sessions at the same time and left alone |
| `Results`, `Collections` | Option and Result, small facts about finite sets and maps |

Where a promised property fails, the exact condition is proved and a concrete input is given:

* MD5's counter carries once too often for single updates of 2^29 bytes or more (`Md5Counter.CounterStep`).
* An empty plain text is encrypted to nothing and refused on the way back (`Payload.XxteaRoundTrip`);
  an empty frame is sent and refused by the reader (`Frames.FrameReadBack`).
* Appending a segment misreads a container whose last content ends in an underscore (`SaveBlob.AppendSegmentExact`).
* Weeks before the epoch are off because of truncating division (`WeekClock.WeekContainsNow`).
* An account keeps its quota over every run if and only if its row does not carry the name of one of
  the 21 slots, `npc:<week>:<slot>` in area 1, as the table compares names: under
  `utf8mb4_unicode_ci` `NPC:<week>:0` is such a name too (`Quota.QuotaKeptIffUnnamed`,
  `Quota.CapitalsLoseQuota`). A loadout, an upload or the end of a fight makes such a row as long as
  nobody has looked at the board of that week or searched; it also keeps the computer-run fighters
  from ever settling (`Ladder.SecondRunQuietIff`).
* A cached session outlives its row by less than a second (`Sessions.AgreesWithTable`).
* Sessions are issued, validated and revoked without a common lock. Revoked sessions are sure to stay
  refused if and only if neither an issue nor a validation of an account may overlap a revocation of
  it (`SessionSteps.RevokedRefusedIffAlone`, with a failing run for each of the four overlaps).
  Deleting an account does not touch the cache (`SessionSteps.DeletionIffUncached`).
* The JSON scanner reads a key right in every object if and only if the key is no gap: not `:`, not
  `,`, and not a colon, a bare value and a comma (`JsonScan.ExactIffNoGap`). No key the server asks for
  is one (`JsonScan.ServerKeysFindable`).
* Personal mail is sent and removed without a lock. Live mail stays indexed until it expires if and
  only if no operation overlaps a send of the same key (`MailSteps.IndexSoundIffSendsAlone`, with a
  failing run for each of the three overlaps).

The second attempt of `current_fight_data` to read a document is proved to be dead code
(`FightData.StrictIsNeverNeeded`).

Parameters stand for what the model does not compute: the JSON library (assumed to read back the
document it has just written), shuffles and random draws, the clock, the outcome of a send, whether a
thread starts, how much a `recv` delivers, the choice of an enemy, and how MySQL compares names (by
what a function folds them to, which for the ladder has to keep the slots' own names). Every theorem
holds for all of their values. The theorems about streaming and keys hold for every transform of one
MD5 block; `Md5Steps` has the actual one.

`dafny verify dfyconfig.toml` checks the project.

## Model

| member | source | states |
|---|---|---|
| Xxtea.UnstepStep | src/crypto.cpp:153-193 | taking one word back after it was advanced restores the whole word array, because neither neighbour it is mixed with is the word itself (needs two words) |
| Xxtea.UnsweepSweep | src/crypto.cpp:158-193 | undoing positions k-1..0 after advancing 0..k-1 restores the array, for every prefix length |
| Xxtea.UnroundsRounds | src/crypto.cpp:153-193 | rounds with the sums r*delta down to delta undo rounds with delta up to r*delta, in wrapping 32-bit arithmetic |
| Xxtea.DecryptedEncrypted | src/crypto.cpp:153-193 | for every array, every count n (also 0, 1 and negative, where both do nothing) and every 4-word key, decrypting the encryption gives the array back |
| Xxtea.RoundForward | src/crypto.cpp:160-171 | the inner loop of btea in place: n words each advanced from its neighbours as they are by then, words from n on untouched |
| Xxtea.RoundBack | src/crypto.cpp:181-192 | the inner loop of btea_decrypt in place, from the last word to the first |
| Xxtea.Btea | src/crypto.cpp:153-172 | the array is overwritten with exactly the specified encryption of its first n words; the rest stays |
| Xxtea.BteaDecrypt | src/crypto.cpp:174-193 | the array is overwritten with exactly the specified decryption, the inverse of Btea |
| Xxtea.KeyOrder | src/crypto.cpp:163-169 | over four positions in a row each key word is used once, in the order the sum selects |
| XxteaVector.KnownAnswer | src/crypto.cpp:153-172 | the published test vector: two zero words under the key 01 02 04 ... C0 80 become D1 E7 8B E2 C7 46 72 8A |
| WordCodec.FromToWords | src/crypto.cpp:130-151 | bytes packed little-endian into zeroed words and cut at their own length come back unchanged, for every length modulo 4 |
| WordCodec.GatherSpread | src/crypto.cpp:311-353 | writing words out as bytes and gathering them again loses nothing |
| WordCodec.ValueOfLengthWord | src/crypto.cpp:137-139 | the trailer word holds the length modulo 2^32 |
| WordCodec.ToUint32Array | src/crypto.cpp:130-143 | the shifting loop computes the packed words, trailer included when asked for |
| WordCodec.FromUint32Array | src/crypto.cpp:145-151 | the loop takes out the bytes of the words in order |
| Base64.DecodeEncode | src/crypto.cpp:249-309 | decoding an encoding gives the bytes back for every byte string, with an accumulator that is never masked and wraps at 32 bits (section 4 of RFC 4648) |
| Base64.DecodeFromEncode | src/crypto.cpp:282-309 | the same from any left-over accumulator content, so earlier bits never leak into later bytes |
| Base64.EncodeShape | src/crypto.cpp:249-280 | the output has 4 characters for every started group of 3 bytes, all from the alphabet or '=' |
| Base64.EncodeHasNoUnderscore | src/crypto.cpp:249-280 | base64 text never contains the character of the save delimiter |
| Base64.DigitOfValue | src/crypto.cpp:282-300 | only the 64 characters of the alphabet have a value, and each has the value of its place in it |
| Base64.Base64Encode | src/crypto.cpp:249-280 | the loop over groups of three with its two padding cases computes the encoding |
| Base64.Base64Decode | src/crypto.cpp:282-309 | the loop that skips foreign characters, line ends and '=' computes the decoding |
| Md5Counter.CounterStep | src/crypto.cpp:91-97 | after an update the low counter word is always right, and the high word is right if and only if CarryExact holds: the update is shorter than 2^29 bytes or its low words really carry |
| Md5Counter.OneUpdateExact | src/crypto.cpp:91-97 | one update of a fresh context counts right exactly below 2^29 bytes |
| Md5Counter.CarryTestTooEager | src/crypto.cpp:93-97 | at 2^29 bytes the carry test already adds one too many |
| Md5Counter.PaddingStops | src/crypto.cpp:116-121 | the padding loop reaches 56 modulo 64 after exactly (55-n) mod 64 zero bytes and not before |
| Md5Counter.PositionFromLow | src/crypto.cpp:92-92 | the buffer position read off the low counter word is the length modulo 64, whatever overflowed |
| Md5.FoldAppend | src/crypto.cpp:91-108 | compressing a whole number of blocks and then the rest is compressing everything |
| Md5.Md5Ctx.constructor | src/crypto.cpp:83-89 | a fresh context has absorbed nothing |
| Md5.Md5Ctx.TransformBlocks | src/crypto.cpp:98-105 | the block loop compresses every complete block of the data and stops at the remainder |
| Md5.Md5Ctx.Update | src/crypto.cpp:91-108 | after any update the state is the fold over all complete blocks absorbed so far, the buffer prefix is the remainder, and the counters are as CounterStep says |
| Md5.Md5Ctx.Final | src/crypto.cpp:110-125 | padding terminates and the digest is the one-shot padded digest of everything absorbed (sections 3.1 to 3.4 of RFC 1321) when the counters were exact |
| Md5.Md5Hex | src/crypto.cpp:197-210 | the digest of one update, equal to the one-shot digest below 2^29 bytes |
| Md5.Md5File | src/crypto.cpp:212-239 | reading 64 KiB at a time gives the one-shot digest for contents of any length |
| Md5.DigestInPieces | src/crypto.cpp:91-125 | every way of cutting the input into updates below 2^29 bytes gives the same digest |
| Md5.OutputWords | src/crypto.cpp:122-124 | the sixteen bytes of the digest are the four words of the state, low-order byte first (section 3.5 of RFC 1321) |
| Md5.PaddedShape | src/crypto.cpp:110-121 | the padded message is the shortest run of whole blocks that holds the message, one bit, zeros and, in its last eight bytes, the bit count modulo 2^64 |
| Md5.CounterWords | src/crypto.cpp:111-114 | the eight counter bytes are the two counter words, low word and low byte first |
| Md5.HexBack | src/crypto.cpp:203-209 | two hexadecimal digits give back their byte |
| Md5Steps.TransformBlock | src/crypto.cpp:27-81 | the 64 operations as the source lists them compute the four rounds of section 3.4 of RFC 1321 |
| Md5Vector.KnownDigest | src/crypto.cpp:27-125 | with these operations the digest of "abc" is 900150983CD24FB0D6963F7D28E17F72, as section A.5 of RFC 1321 says |
| Payload.XxteaRoundTrip | src/crypto.cpp:311-353 | decryption returns the plain bytes if and only if there is at least one and fewer than 2^32; any nonempty text decrypts without an exception |
| Payload.KeyBytes | src/crypto.cpp:316-319 | every byte of the key stands at its own place in the key words, for keys of any length, and only zeros follow |
| Payload.CodeOfIs | src/crypto.cpp:311-319 | a character of a key is its code modulo 256 |
| Payload.EncipheredUnderKey | src/crypto.cpp:311-329 | what is sent is the plain bytes and their length, enciphered under exactly the key's bytes: whoever undoes the cipher with the four words that hold them, filled up with zeros, finds the plain bytes and their number |
| Payload.PayloadUnderDigits | src/crypto.cpp:355-360 | a payload is enciphered under the first sixteen digits of the digest of its version's decimal text |
| Payload.EncryptBytes | src/crypto.cpp:311-329 | the whole of xxtea_encrypt, in place on a word array |
| Payload.DecryptBytes | src/crypto.cpp:331-353 | the whole of xxtea_decrypt with its two refusals |
| Payload.PayloadRoundTrip | src/crypto.cpp:355-367 | decrypt_payload undoes encrypt_payload for every version exactly when 0 < size < 2^32 |
| SaveBlob.JoinSplit | src/save_blob.cpp:18-33 | joining the pieces of a split blob with the delimiter gives the blob, for every string |
| SaveBlob.SplitPieces | src/save_blob.cpp:18-33 | no piece contains the delimiter and no piece but the last ends in an underscore |
| SaveBlob.SplitJoin | src/save_blob.cpp:18-33 | splitting a join gives the pieces back if and only if they are of that kind |
| SaveBlob.ParseSafe | src/save_blob.cpp:89-91 | whatever is parsed is fit to be packed again |
| SaveBlob.ParsePack | src/save_blob.cpp:89-103 | parse(pack(s)) == s if and only if every name is nonempty, no piece holds the delimiter and no piece but the last content ends in an underscore |
| SaveBlob.PackSafeIffFits | src/save_blob.cpp:93-103 | that condition, segment by segment |
| SaveBlob.SetSegmentExact | src/save_blob.cpp:114-128 | replacing an existing segment's content changes it and nothing else if and only if the new content has no delimiter and, unless it is last, no final underscore |
| SaveBlob.SetSegmentPlain | src/save_blob.cpp:114-128 | content without underscores always satisfies that |
| SaveBlob.AppendSegmentExact | src/save_blob.cpp:114-128 | appending a missing segment is exact if and only if the new pieces are sound and the former last content does not end in an underscore |
| SaveBlob.AppendAfterUnderscore | src/save_blob.cpp:114-128 | a concrete container that is misread after an append |
| SaveBlob.SplitBlob | src/save_blob.cpp:18-33 | the greedy scanning loop computes the split |
| SaveBlob.PartsToSegments | src/save_blob.cpp:35-50 | the pairing loop, skipping a leading empty piece and unnamed pairs |
| SaveBlob.ToParts | src/save_blob.cpp:52-61 | the flattening loop |
| SaveBlob.PackSegments | src/save_blob.cpp:93-103 | the joining loop |
| SaveBlob.Replace | src/save_blob.cpp:114-128 | the search-and-replace loop: first match, else append |
| SaveBlob.WriteSegment | src/save_blob.cpp:114-128 | parse, replace and pack in one |
| SaveBlob.ReadSegment | src/save_blob.cpp:105-112 | the loop that looks for the first segment of a name |
| SaveCrypto.DerivedKeys | src/save_crypto.cpp:36-58 | derived keys are 16 hexadecimal digits (15 in the newer derivation when the index leaves 17 modulo 18), and they repeat: indices equal modulo 144, or 112 in the older derivation, have the same key |
| SaveCrypto.NewKeyIsDigits | src/save_crypto.cpp:36-45 | the newer key is the digits, from place index modulo 18 on, of the digest of "vabi98dftdlpzeag" with the letter number index modulo 16 of "habo6qeegjpqdgfl" after every character |
| SaveCrypto.OldKeyIsDigits | src/save_crypto.cpp:47-56 | the older key likewise, from place index modulo 7 on, with its own texts |
| SaveCrypto.KeyOfMode | src/save_crypto.cpp:108-144 | the key of a mode, with the loop that interleaves, the cuts of the digest and of a captured key, and the one refusal |
| SaveCrypto.DatRoundTrip | src/save_crypto.cpp:60-70 | decrypting under the mode that encrypted gives the text back, for every mode with a key and every text with 0 < size < 2^32 |
| SaveCrypto.DecryptDatAutoIsFirst | src/save_crypto.cpp:155-190 | the automatic mode returns the first candidate, in the order override, PaPaNew2, PaPa, plain, whose text looks like JSON, and fails exactly when none does |
| SaveCrypto.EncryptedIsOpened | src/save_crypto.cpp:60-78 | a text of 1 to 2^32-1 bytes that begins with '{' or '[' and was encrypted under any mode with a key is always opened |
| SaveCrypto.CurrentModeIsOpened | src/save_crypto.cpp:155-190 | exactly as it was, and in its own mode, if no earlier mode gives anything that begins so; always for PaPaNew2 without a captured key |
| SaveCrypto.OpenedBeginsLikeJson | src/save_crypto.cpp:72-78 | nothing is ever returned that does not begin with one of the two characters |
| SaveCrypto.DecryptAuto | src/save_crypto.cpp:155-190 | the loop over modes with its swallowed exceptions computes that |
| SaveEdit.EditDatExact | src/save_blob.cpp:63-87 | every successful edit whose new document the JSON library reads back is exact: same segments in the same order, only the first dat.json replaced, and the mode that opened it decrypts the new content to the dump of the new document |
| SaveEdit.StripEditMeaning | src/save_blob.cpp:130-132 | stripping acts exactly when the document carries bl and removes that member only |
| SaveEdit.StripUndoesApply | src/save_blob.cpp:130-142 | stripping after applying gives the document back |
| SaveEdit.StripBlExact | src/save_blob.cpp:130-132 | strip_bl never fails on a readable save; it returns the blob itself without bl, else an exact edit |
| SaveEdit.ApplyBlExact | src/save_blob.cpp:134-142 | apply_bl likewise appends the mark as the last member |
| SaveEdit.EditDocument | src/save_blob.cpp:63-87 | the edit step by step, with its refusals |
| SaveEdit.StripsClientsMark | src/save_blob.cpp:130-132 | stated from the encrypted document: on every save whose dat.json is such a document stripping succeeds, removes the member "bl" and nothing else, or leaves the save as it is if there is none |
| SaveEdit.MarksClientsDocument | src/save_blob.cpp:134-142 | marking such a save succeeds and appends the member "bl" with the value 1, unless there is one |
| SaveEdit.MissingDocumentIsEmpty | src/save_blob.cpp:63-72 | what counts as a missing document |
| HubRegistry.EntriesAreTheirKeys | src/push_hub.cpp:301-325 | in every interleaving each entry of by_acc is a connection authenticated as its key whose handler is still running |
| HubRegistry.EntryKeptUnless | src/push_hub.cpp:301-325 | an entry changes only when its own connection unregisters, one of the same account registers, or stop() empties the map: a displaced connection's cleanup never removes its successor |
| HubRegistry.OneOpenPerAccount | src/push_hub.cpp:312-325 | two open connections of one account are never both settled in: one of them is closed or about to be closed by whoever displaced it |
| HubRegistry.CounterIsExact | src/push_hub.cpp:571-632 | the counter is the number of accepted connections whose handler has not finished, also when thread creation fails, and never exceeds the bound |
| HubRoutes.OksAreEarned | src/push_hub.cpp:399-490 | in every interleaving each wave_ok for a nonempty id goes to the connection whose wave recorded that route, after a wave_ack from a connection of the route's target account, at most once per route |
| HubHonesty.NoOkAndFail | src/push_hub.cpp:399-490 | with fresh ids and clients that acknowledge only waves that were sent, no wave gets both wave_ok and wave_fail |
| HubFlow.WaveGoesOut | src/push_hub.cpp:399-456 | a wave to a registered open connection whose send succeeds: the target gets it, its route is pending with everything its acknowledgement needs, routes older than a minute are gone and no others, nothing is thanked for or refused |
| HubFlow.BrokenWaveIsRefused | src/push_hub.cpp:441-453 | a failed send closes the target, takes the route back and is refused |
| HubFlow.OfflineWaveIsRefused | src/push_hub.cpp:417-423 | a wave to an absent or closed account is refused, and nothing else happens |
| HubFlow.OldWaveIsThanked | src/push_hub.cpp:458-464 | a wave without an id, from an old client, is thanked for at once |
| HubFlow.IdleWaveIsDropped | src/push_hub.cpp:402-404 | a wave to nobody or to oneself does nothing |
| HubFlow.AckIsPassedOn | src/push_hub.cpp:466-490 | an acknowledgement by the target account sends exactly one wave_ok with that id to the open sender, takes the route away and goes back to reading |
| HubFlow.AckOfGoneSender | src/push_hub.cpp:480-484 | with the sender closed the route goes and nothing is sent |
| HubFlow.StrayAckIsDropped | src/push_hub.cpp:466-479 | an acknowledgement of nothing, or of a wave to somebody else, changes nothing |
| HubFlow.ClientConnects | src/push_hub.cpp:492-632 | a client that authenticates becomes the registered connection of its account; whoever was before is closed, and nothing else changes |
| HubFlow.SpawnFailureIsUndone | src/push_hub.cpp:571-632 | a connection whose thread cannot be created is closed and counts no more |
| HubFlow.FullHubAdmitsNobody | src/push_hub.cpp:571-632 | a full or stopped hub admits nobody |
| HubFlow.StrangersLeave | src/push_hub.cpp:492-570 | whoever does not authenticate first is shown the door |
| HubFlow.ClientLeaves | src/push_hub.cpp:492-570 | a client that goes is unregistered if it still is the registered one, closed and counted off |
| HubFlow.ClosedHandlersLeave | src/push_hub.cpp:492-570 | a handler whose connection was closed, or whose hub was stopped, leaves; any other waits |
| HubFlow.StopTakesEveryone | src/push_hub.cpp:664-690 | stopping unregisters everybody and closes everybody who was registered |
| HubAnswers.NoWaveVanishes | src/push_hub.cpp:399-464 | in every interleaving each wave with an id that was read is in a handler's hands, or was sent in full to its target, or was refused |
| HubAnswers.NoAckIsLost | src/push_hub.cpp:466-490 | in every interleaving each route an acknowledgement took out has been thanked for, or is about to be, or its sender's connection is closed |
| HubRegistry.InvKept | src/push_hub.cpp:492-632 | every step of every thread keeps the invariant of map, handlers and counter |
| HubRoutes.RouteKept | src/push_hub.cpp:399-490 | every step keeps the bookkeeping of routes: who recorded, who acknowledged, who was thanked |
| HubHonesty.HonestKept | src/push_hub.cpp:399-490 | every step of honest clients keeps ids apart: undecided, delivered or failed |
| Frames.LengthOfHeader | src/push_hub.cpp:121-126 | the four header bytes give back every 32-bit length |
| Frames.FrameReadBack | src/push_hub.cpp:117-130 | a frame of at most 64 KiB is read back with nothing behind it touched, exactly when its body is not empty: an empty one is sent but refused by the reader |
| Frames.SentIffFits | src/push_hub.cpp:117-120 | bodies up to 64 KiB are sent, longer ones refused |
| Frames.SendFrame | src/push_hub.cpp:117-130 | the header shifted together byte by byte is the specified one |
| Frames.FramesReadBack | src/push_hub.cpp:285-299 | a run of nonempty frames is read back frame by frame |
| Frames.Receiver.ReadExact | src/push_hub.cpp:235-283 | collects exactly n bytes however they arrive, or fails when the stream ends before |
| Frames.Receiver.Read | src/push_hub.cpp:285-299 | reads one frame off a stream that arrives in pieces of any size |
| WeekClock.WeekContainsNow | src/lunjian_pool.cpp:251-260 | begin <= now < end if and only if now is from three shifted days before the epoch on, or earlier exactly at the start of a week: the truncating division fails before that |
| WeekClock.WeeksTile | src/lunjian_pool.cpp:251-260 | the id is constant within a week and 7 more at its end |
| WeekClock.WeekOfDay | src/lunjian_pool.cpp:251-255 | the week depends on day_id alone, so a change of week is a change of day |
| WeekPool.CategoryIsOk | src/lunjian_pool.cpp:76-105 | every drawn category consists of catalog entries used no more often than they occur, at most 4 graded ones of one star strictly above the plain star, at most 14 plain ones of the lowest star |
| WeekPool.CategoryAdvertised | src/lunjian_pool.cpp:173-180 | a drawn category passes the checks of the refresh, and the advertised grade is the graded star, or 0 exactly when none is graded |
| WeekPool.CategoryCounts | src/lunjian_pool.cpp:76-105 | how many entries a category has: all of the lowest star up to fourteen, and, if there is a higher star to draw, as many of it as the draw says, one to four, unless the catalog has fewer |
| WeekPool.GradeDrawnIff | src/lunjian_pool.cpp:48-60 | a grade is drawn exactly when the catalog has a star from 1 to 6 other than its lowest |
| WeekPool.CharsWellChosen | src/lunjian_pool.cpp:126-171 | at most twelve usable catalog persons with different ids and nicks; with fewer than twelve every usable person clashes with a chosen one |
| WeekPool.ByIdsPlain | src/lunjian_pool.cpp:107-124 | the first period's list succeeds exactly when every id is in the catalog, in order and ungraded |
| WeekPool.BuiltPoolIsSound | src/lunjian_pool.cpp:277-304 | all of this for every pool that is built, whatever the catalog and the draws; only the first period can throw |
| PoolServes.BuiltPoolServes | src/lunjian_pool.cpp:277-304 | a pool built from a loaded catalog has positive ids throughout and persons of different ids and names: what loadouts and dealt teams rely on |
| WeekPool.MinStarOf | src/lunjian_pool.cpp:30-36 | the lowest star by loop |
| WeekPool.CountStar | src/lunjian_pool.cpp:38-46 | the number of entries of a star by loop |
| WeekPool.RollGrade | src/lunjian_pool.cpp:48-60 | the star that is drawn, 0 when no higher star qualifies |
| WeekPool.SortByStar | src/lunjian_pool.cpp:76-92 | one pass sorts the entries into the drawn star and the lowest |
| WeekPool.PickCategory | src/lunjian_pool.cpp:76-105 | the drawing of one category |
| WeekPool.PickChars | src/lunjian_pool.cpp:126-171 | the fixed line-up and then spares until twelve |
| WeekPool.PickIds | src/lunjian_pool.cpp:107-124 | the lookup loop, failing at the first missing id |
| WeekPool.AdvertisedGrade | src/lunjian_pool.cpp:173-180 | the first graded entry's star, or 0 |
| WeekPool.CheckGraded | src/lunjian.cpp:492-512 | the refresh check by loop accepts exactly the categories the specification accepts |
| Loadouts.FindItemMeaning | src/lunjian_pool.cpp:306-313 | an item is found exactly when its id is in the pool |
| Loadouts.TakeUnusedMeaning | src/lunjian.cpp:801-814 | the item taken is in the pool and nobody's, and 0 means that the pool is used up |
| Loadouts.TakeUnusedLoop | src/lunjian.cpp:801-814 | the scan computes it |
| Loadouts.EnsuredIsComplete | src/lunjian.cpp:817-853 | after completing, owners are on the team, items in the pool, no item has two owners, and nobody lacks one while the pool has one |
| Loadouts.CompleteIffEnough | src/lunjian.cpp:817-853 | pigeonhole: everybody has an item if and only if the pool has at least as many as the team |
| Loadouts.EnsuredIdempotent | src/lunjian.cpp:817-853 | completing twice is completing once |
| Loadouts.EnsuredOfComplete | src/lunjian.cpp:817-853 | a complete assignment is left alone |
| Loadouts.EnsuredKeepsValid | src/lunjian.cpp:822-835 | a valid assignment is kept unless an earlier member of the team holds the same item |
| Loadouts.FilledIsChange | src/lunjian.cpp:836-852 | whatever is filled in differs from what was given |
| Loadouts.EnsureLoadoutKungfu | src/lunjian.cpp:817-853 | completes both maps, and returns true exactly when the loadout changed |
| Loadouts.TryAssignKungfu | src/lunjian.cpp:775-800 | the loop that looks for another holder, and the assignment itself |
| LoadoutSets.SetKeepsOk | src/lunjian.cpp:1413-1508 | every request keeps every promise: up to 5 different pool persons of different names, exclusive pool skills and arts with nothing left out, up to 4 different pool pieces each |
| LoadoutChoices.SkillIsChosen | src/lunjian.cpp:1452-1469 | a skill is accepted exactly for a member of the team, from the pool, when no teammate holds it; then that member has it, and every other skill, all arts, equipment and the team are as they were; a refusal changes nothing |
| LoadoutChoices.ArtIsChosen | src/lunjian.cpp:1452-1469 | the same for inner arts |
| LoadoutChoices.SkillIsGivenBack | src/lunjian.cpp:790-799 | giving a skill back is accepted for every member of the team; everybody else keeps theirs, and the skills are completed again |
| LoadoutChoices.ArtIsGivenBack | src/lunjian.cpp:790-799 | the same for inner arts |
| LoadoutChoices.NegativeIsRefused | src/lunjian.cpp:1459-1462 | negative ids are refused |
| LoadoutChoices.TeamIsChosen | src/lunjian.cpp:1422-1451 | a team is accepted exactly when it is one to five persons of the pool, none twice and no two of the same name; it is stored in the order given, whoever stays keeps skill, art and equipment, and nobody else's equipment is left |
| LoadoutChoices.NickIsThePools | src/lunjian_pool.cpp:306-313 | the name a person is known by is the one the pool gives |
| LoadoutChoices.EquipmentIsChosen | src/lunjian.cpp:1470-1488 | equipment is accepted exactly for a member of the team, up to four places, pieces of the pool, none twice; it is stored in order without the empty places, none at all removes the entry, and nothing else changes |
| LoadoutChoices.NoListIsRefused | src/lunjian.cpp:1422-1491 | what is no list, or no known choice, is refused; whatever is refused changes nothing |
| LoadoutSets.ReloadedIsSame | src/lunjian.cpp:625-696 | storing and reading back such a loadout loses nothing, although reading filters |
| LoadoutSets.RepairedTeamIsOk | src/lunjian.cpp:1293-1306 | the repaired team is proper whatever was stored, and only strangers, repetitions and namesakes are left out |
| LoadoutSets.RepairedOfOk | src/lunjian.cpp:1287-1320 | a proper loadout is shown as it is |
| LoadoutSets.RepairedIdempotent | src/lunjian.cpp:1287-1320 | a second repair finds nothing, whatever was stored |
| LoadoutSets.RepairedMeaning | src/lunjian.cpp:1287-1320 | a loadout with nobody from the pool is left alone; otherwise the team becomes proper, skills and arts exclusive and complete, whoever stays keeps an item that nobody else has, and all equipment stays |
| LoadoutSets.RunGoesOn | src/lunjian.cpp:1413-1508 | a run goes on from where it was: only a request changes what is stored |
| LoadoutSets.ParseLoadout | src/lunjian.cpp:625-696 | the loops that read the stored maps, dropping what is not positive |
| LoadoutSets.RunIsFair | src/lunjian.cpp:1413-1508 | after every run of requests, uploads and displays from an empty loadout in one week: a team of 0 to 5 different pool persons no two of whom share a nonempty name, exclusive assignments, and everybody has a skill (an art) if and only if the pool has enough |
| PoolServes.BuiltRunIsFair | src/lunjian.cpp:1413-1508 | the same for every pool that can be built, where every person has a name and no two on a team have the same |
| LoadoutSets.CheckTeam | src/lunjian.cpp:1426-1441 | the loop over ids with its set of used names accepts exactly proper teams |
| LoadoutSets.CheckEquips | src/lunjian.cpp:1470-1488 | the loop over pieces, skipping zeros |
| LoadoutSets.KeepTeam | src/lunjian.cpp:1442-1451 | erasing while iterating keeps exactly the entries of the team |
| LoadoutSets.HandleSet | src/lunjian.cpp:1413-1508 | one request: what is stored after it, and which requests are refused with nothing stored |
| FightData.SlottedMeaning | src/lunjian.cpp:746-770 | every slot holds the first nonzero piece of its kind in the list, or 0 when there is none |
| FightData.SlottedStable | src/lunjian.cpp:761-770 | placing what was read off the slots changes no slot |
| FightData.StrictIsNeverNeeded | src/lunjian.cpp:1121-1178 | the second chance in current_fight_data never helps: whoever the strict reading finds, the first reading found |
| FightData.FightDataReadBack | src/lunjian.cpp:874-912 | a loadout read off its own fight data makes the same fight data, five players and substitutes alike |
| FightData.CurrentIdempotent | src/lunjian.cpp:1256-1270 | current_fight_data is idempotent on every stored column |
| FightData.CurrentOfStored | src/lunjian.cpp:1256-1270 | fight data of a stored loadout is handed out unchanged, also when the week is short of skills |
| FightData.RebuildIffTooFewSkills | src/lunjian.cpp:1181-1206 | fight data of a stored loadout asks for a rebuild if and only if the week has fewer skills than the team has persons |
| FightData.SlottedEquips | src/lunjian.cpp:761-770 | the placement loop on a four-slot array |
| FightData.BadPlayers | src/lunjian.cpp:1185-1203 | the loop that looks for a player without a usable skill |
| FightData.TakePlayers | src/lunjian.cpp:1211-1247 | the loop that reads a list of players into a loadout |
| FightData.TakeStrictly | src/lunjian.cpp:1121-1166 | the loop that reads a list of players strictly: any stranger makes it fail |
| FightData.FightBlobInPool | src/lunjian.cpp:1121-1178 | the strict reading of a whole document |
| FightData.HandOut | src/lunjian.cpp:1256-1270 | what is handed out; it differs from what is stored only for documents that need a rebuild |
| FightData.PlayerJson | src/lunjian.cpp:856-899 | one player of the document: item, art and pieces with their flags, resolved one by one |
| FightData.MakeFightData | src/lunjian.cpp:901-912 | the document: five players, and everybody after them as substitutes |
| Decimals.ValueOfText | src/lunjian.cpp:138-155 | the digits of a number read as that number |
| Decimals.StoiReads | src/handlers.cpp:219-219 | std::stoi skips blanks, takes a sign and the run of digits, ignores what follows, and fails outside 32 bits |
| Decimals.StoiNeedsDigits | src/handlers.cpp:219-219 | and fails when no digit follows the blanks and the sign |
| Decimals.IntOfIff | src/lunjian.cpp:138-155 | a strict number is an optional minus sign and at least one digit, nothing else |
| NpcNames.NpcSlotOfAccount | src/lunjian.cpp:138-155 | the slot comes back out of the account name, for every week; -1 from 1000 on |
| NpcNames.NpcSlot | src/lunjian.cpp:138-155 | the scan from the last colon computes the slot |
| NpcTeams.NpcLoadoutOk | src/lunjian.cpp:1000-1046 | every dealt team, whatever the shuffles, keeps all promises of a player's loadout |
| NpcTeams.DrawnMeaning | src/lunjian.cpp:1031-1042 | one drawn piece for every slot that has any, all of different slots |
| NpcTeams.DealtUsesPoolIffRich | src/lunjian.cpp:940-963 | a dealt team counts as the week's if and only if the week has a person, a piece for each of the four slots and a skill for everyone on the team |
| NpcTeams.FightPowerOf | src/lunjian.cpp:726-744 | the power by its nested loops |
| NpcTeams.StarIn | src/lunjian.cpp:721-724 | a star counts at least one, and what is not in the pool counts one |
| NpcTeams.FillBags | src/lunjian.cpp:992-998 | one pass sorts the pieces into the four slots |
| NpcTeams.DealTeam | src/lunjian.cpp:1000-1046 | dealing one team from bags that are emptied from the back |
| Ladder.SortKeepsSlots | src/lunjian.cpp:1085-1086 | sorting by power neither loses nor repeats a slot |
| Ladder.NpcsElsewhere | src/lunjian.cpp:965-1092 | the completion touches no row but those whose name is, as the table compares names, that of one of the 21 slots in area 1 |
| Ladder.NpcsAreTheSlots | src/lunjian.cpp:965-1092 | after it a channel's computer-run fighters of the week are exactly slots 0 to 20, whatever was there, provided no human row has a name the table takes for a slot's |
| Ladder.SecondRunWritesNothing | src/lunjian.cpp:965-991 | in a week with a person, four slots and enough skills, and without a human row of a name the table takes for a slot's, a second run finds nothing to do, whatever was there before the first |
| Ladder.SecondRunQuietIff | src/lunjian.cpp:965-1092 | from a week without computer-run fighters, the second run writes nothing if and only if the week is rich in that sense and no human row has a name the table takes for a slot's |
| Ladder.HumanNameOverwritten | src/lunjian.cpp:914-929 | a human row of such a name is overwritten with a computer's quota and fight data on every run, and stays marked human |
| Ladder.HumanNameNeverQuiet | src/lunjian.cpp:965-1092 | while there is such a row the completion never finds its work done |
| Ladder.RebuildRanks | src/lunjian.cpp:1074-1092 | without human rows of such names a full rebuild gives the scores 6, 9, ..., 66, each once, and a lower score never goes with more power |
| Quota.AfterKeepsQuota | src/lunjian.cpp:613-623 | every one of the six requests keeps the quota of every row whose name the table does not take for a slot's |
| Quota.QuotaConserved | src/lunjian.cpp:1572-1699 | over every run of the six requests by any players, on every such row: searches left and successful ones since the quota was last handed out are 25 together, and both between 0 and 25 |
| Quota.NamedPlayerLosesQuota | src/lunjian.cpp:914-1092 | the exception is real for each of the 21 names in each spelling the table takes for one: its holder is left with no searches and none made once somebody looks at the board |
| Quota.QuotaKeptIffUnnamed | src/lunjian.cpp:914-1117 | exactly who keeps the quota over every run: an account, in whatever spelling, keeps it if and only if its folded name and area are not those of a slot |
| Quota.CapitalsLoseQuota | src/lunjian.cpp:530-558 | a table that ignores capitals takes `NPC:<week>:<slot>` for the slot, so that account, which is no slot's name by itself, loses its quota |
| Quota.NamedNeverFind | src/lunjian.cpp:1572-1699 | no search under a slot's name ever succeeds, and computer-run fighters never have searches left |
| Quota.AtMost25AWeekADay | src/lunjian.cpp:1094-1117 | while the clock does not go back, no player, whatever the name, finds more than 25 enemies in one day for each week whose board was served on that day |
| Quota.WeeksLastADay | src/lunjian.cpp:461-480 | the week does not change within a day, neither when it follows the clock nor when it is pinned |
| Quota.AtMost25ADay | src/lunjian.cpp:1094-1117 | so with one week a day, natural or pinned, no player finds more than 25 enemies a day, not even across a change of week |
| Searches.SearchSucceedsIff | src/lunjian.cpp:1572-1699 | a search succeeds exactly when the player has fight data or a team to make it from, searches are left and the enemy has fight data; then, and only then, it is counted and one search is taken away |
| Searches.AllSearchesSucceed | src/lunjian.cpp:1572-1699 | a player with a team makes all the searches left, 25 at the start of a day: each one with a proper enemy succeeds until they are used up |
| Searches.ShownIsRepaired | src/lunjian.cpp:1287-1320 | looking at a row with anyone from the pool shows the fight data of the repaired loadout; any other row is left alone |
| LadderServers.SortByPower | src/lunjian.cpp:1085-1086 | sorting by power, by insertion |
| LadderServers.LadderServer.EnsureNpcs | src/lunjian.cpp:965-1092 | reads, deals, adds or rebuilds, and leaves the table as specified |
| LadderServers.LadderServer.EnsurePlayer | src/lunjian.cpp:1094-1117 | finds or makes the row and renews the quota on a new day, never for a computer-run fighter |
| LadderServers.LadderServer.SaveFighter | src/lunjian.cpp:914-929 | inserts or updates one row: every mark stays as it was, no other row changes, and a new row is stored as given |
| LadderServers.LadderServer.Repair | src/lunjian.cpp:1287-1320 | stores the repaired loadout only when something changed |
| LadderServers.LadderServer.Find | src/lunjian.cpp:1572-1699 | a search takes one from the quota exactly when it succeeds, and stores what the enemy's data was rebuilt to |
| LadderServers.LadderServer.Handle | src/lunjian.cpp:1350-1742 | one request as the server handles it, ending in the state the quota theorems are about |
| JsonScan.LocateIsExact | src/handlers.cpp:133-150 | in the compact text of a flat object the scan stops exactly at the value of the first field of that key, and finds nothing for an absent key, whatever the values look like |
| JsonScan.SpacedKeyIsFound | src/handlers.cpp:133-150 | blanks on either side of the colon make no difference: after text without quotes the first key is found, and what follows the blanks is taken for its value |
| JsonScan.NoColonNoKey | src/handlers.cpp:133-150 | a quoted text that no colon follows is no key |
| JsonScan.AtField | src/handlers.cpp:133-150 | at a field the key is found or passed over as a whole |
| JsonScan.KeyInValue | src/handlers.cpp:133-150 | the quoted key fits into a string value nowhere but at its very end |
| JsonScan.PastValue | src/handlers.cpp:133-150 | no value, escaped quotes included, can hold up or mislead the scan |
| JsonScan.UnescapedPieces | src/handlers.cpp:152-196 | the escapes come back as the characters they stand for |
| JsonScan.UnicodeEscape | src/handlers.cpp:152-196 | a \u escape with its four characters reads as one question mark |
| JsonScan.ShortUnicodeEscape | src/handlers.cpp:152-196 | so does one that is cut short, and what is left of it stays |
| JsonScan.OtherEscape | src/handlers.cpp:152-196 | any other escaped character stands for itself, except n, r and t |
| JsonScan.NumberIsRead | src/handlers.cpp:212-239 | a signed run of digits is read as the number, whatever follows, and refused outside 32 bits |
| JsonScan.NoDigitsNoNumber | src/handlers.cpp:212-239 | what does not begin with a digit, a sign or a quote is no number |
| JsonScan.GetStringIsExact | src/handlers.cpp:198-210 | json_get_string gives exactly the bound text, nothing for a number or an absent key, the empty text for null |
| JsonScan.GetIntIsExact | src/handlers.cpp:212-239 | json_get_int gives exactly the bound integer, what std::stoi makes of a bound text, and nothing for null or an absent key |
| JsonScan.KeyClosingQuote | src/handlers.cpp:133-150 | the quote that closes a key is passed over, whatever value follows |
| JsonScan.ExactIffNoGap | src/handlers.cpp:133-239 | a key printed as it is is read right in every object if and only if it is not a colon, not a comma, and not a colon, a bare value and a comma |
| JsonScan.Misread | src/handlers.cpp:133-150 | an object for every such key in which it is misread |
| JsonScan.ColonKeyMisread | src/handlers.cpp:133-150 | the key ':' is found in an object without it |
| JsonScan.CommaKeyMisread | src/handlers.cpp:133-150 | the key ',' is not found in an object with it |
| JsonScan.ServerKeysFindable | src/handlers.cpp:672-680 | none of the keys the server asks for is misread |
| JsonScan.LocateKey | src/handlers.cpp:133-150 | the searching loop |
| JsonScan.ParseStringValue | src/handlers.cpp:152-196 | the unescaping loop |
| JsonScan.JsonGetString | src/handlers.cpp:198-210 | the reader of texts |
| JsonScan.JsonGetInt | src/handlers.cpp:212-239 | the reader of integers |
| Resp.ReadPrinted | src/redis.cpp:281-328 | every reply of the protocol, nested to any depth, within the reader's limits, is read back and what follows is untouched |
| Resp.RequestReadBack | src/redis.cpp:330-338 | the reader inverts the request writer for up to 1,000,000 arguments of up to 64 MiB, whatever bytes they hold |
| Resp.RequestRefusedIff | src/redis.cpp:281-338 | those bounds are exact |
| Resp.ReadLater | src/redis.cpp:281-328 | a reply that was read or found malformed stays so whatever bytes arrive later; only a missing rest can change the outcome |
| Resp.Connection.ReceiveLine | src/redis.cpp:246-260 | a line up to CR LF, fewer than 1 MiB |
| Resp.Connection.ReceiveBytes | src/redis.cpp:262-279 | exactly so many bytes, however recv cuts them |
| Resp.Connection.ReadReply | src/redis.cpp:281-328 | the recursive reader on a stream: the specified reply and the specified rest, terminating on the bytes left |
| Resp.BuildRequest | src/redis.cpp:330-336 | the request text, argument by argument |
| MailKeys.ParseMailKey | src/mail.cpp:69-101 | parse_mail_key inverts mail_key for valid parts and positive areas |
| MailKeys.GlobalKeyIsNotPersonal | src/mail.cpp:73-101 | no global key parses as a personal one, whatever the channel's name |
| Mail.SentShape | src/mail.cpp:277-298 | a stored array has exactly one reward, last, after the base's other activities in order; its gift, and its entry in a listing, hold a key if and only if it was sent, is not empty and has a positive count, in the count sent |
| Mail.SentAgain | src/mail.cpp:277-298 | sending on top of a stored array replaces the reward and keeps the rest |
| Mail.StoreFollowsRun | src/mail.cpp:269-298 | over every run of operations one after the other each live mail is the last one sent to its address and is indexed with a score no earlier than its expiry |
| Mail.LookupIsLatest | src/mail.cpp:329-351 | a mailbox read at any later instant holds the last mail sent and not removed, for two hours |
| Mail.ListIsExact | src/mail.cpp:389-419 | listing a channel gives exactly its live mails, one entry per address, with the items last sent |
| Mail.ListShowsWhatWasSent | src/mail.cpp:123-160 | every entry of a listing shows what the last send to its mailbox carried: when it began, and exactly its named items of positive count, each in the count that was sent |
| Mail.SendAcceptedIff | src/mail.cpp:269-287 | a send is accepted exactly when channel and account are not empty and without colons, the area is positive, and there is a named item of positive count |
| Mail.GlobalAcceptedIff | src/mail.cpp:300-318 | a send to everybody likewise |
| Mail.ListedKeepsMail | src/mail.cpp:389-419 | listing takes away no mail that can be shown, nor its place in the index, and adds nothing, whatever else the store holds |
| Mail.ListAfterRun | src/mail.cpp:389-419 | after any run of sends and removals listing is only the cleaning of expired keys |
| MailServers.RemoveIsTruthful | src/mail.cpp:437-449 | after any run a removal reports success exactly when the mailbox has mail |
| MailServers.DropGold | src/mail.cpp:277-284 | erasing while iterating removes exactly the rewards |
| MailServers.MakeReward | src/mail.cpp:104-126 | the loop that keeps the named items of positive count |
| MailServers.ParseEntry | src/mail.cpp:128-173 | the loop that looks for the reward, and the one that reads its items, dropping counts outside 1 to 2^31-1 |
| MailServers.MailServer.SendMail | src/mail.cpp:269-298 | the send, command by command |
| MailServers.MailServer.SendToAll | src/mail.cpp:300-327 | the global send, which touches no personal index |
| MailServers.MailServer.RemoveMail | src/mail.cpp:437-449 | the removal and its answer |
| MailServers.MailServer.ListMail | src/mail.cpp:389-419 | the listing loop over the index in whatever order, with what it drops on the way |
| MailServers.MailServer.GetActivities | src/mail.cpp:329-351 | the array of a mailbox; a value that is none is dropped with its key |
| MailSteps.IndexSoundIffSendsAlone | src/mail.cpp:269-298 | sends and removals command by command, in every interleaving that keeps to a policy of overlaps: every live mail at rest is indexed until it expires, if and only if nothing overlaps a send of the same key |
| MailSteps.StepKeeps | src/mail.cpp:269-298 | every command keeps what the operations rely on, under such a policy |
| MailSteps.RemovalAlone | src/mail.cpp:437-449 | a removal left alone takes a live value and its place in the index away; without a value only the place, in two commands |
| MailSteps.SendInSend | src/mail.cpp:290-298 | two overlapping sends leave a score before the live value's expiry |
| MailSteps.SendInRemove | src/mail.cpp:437-449 | a send that begins during a removal ends unindexed |
| MailSteps.RemoveInSend | src/mail.cpp:437-449 | so does a send during which a removal begins |
| Scheduler.StepKeeps | src/mail.cpp:218-248 | every step of every loop and cancellation keeps each entry in exactly one place |
| Scheduler.SentOnceNeverEarlyNeverCancelled | src/mail.cpp:218-248 | over every interleaving a schedule is sent at most once, never before its time, and a cancellation that returned true excludes any sending of that id, also after failed sends that put the entry back |
| Scheduler.NothingDisappears | src/mail.cpp:465-531 | whatever was scheduled is waiting, being sent, sent, cancelled, or lost to an exception while being sent |
| ScheduleFlow.DueIsSent | src/mail.cpp:218-248 | a pass over what is due, left alone, sends every entry once, in order, and leaves none of them behind; nothing else changes |
| ScheduleFlow.FailedSendIsPutBack | src/mail.cpp:232-235 | an entry whose send fails is back in the set, and the loop goes on with the others |
| ScheduleFlow.ThrownIsLost | src/mail.cpp:239-241 | an entry whose sending throws is gone |
| ScheduleFlow.ClaimedIsSkipped | src/mail.cpp:226-231 | an entry somebody else has claimed or cancelled is passed over |
| ScheduleFlow.WaitingIsCancelled | src/mail.cpp:516-531 | a cancellation takes the waiting entry of its id away |
| ScheduleFlow.LateCancelFails | src/mail.cpp:516-531 | one that comes too late takes nothing away |
| ScheduleFlow.PlannedWaits | src/mail.cpp:465-487 | a schedule with a new id waits from the moment it is planned |
| Cache.TtlCache.Get | include/jh/cache.hpp:21-42 | never gives an expired entry, and drops it |
| Cache.TtlCache.Put | include/jh/cache.hpp:44-55 | keeps the bound; a new key in a full cache costs the first key in order its place |
| Cache.FilledBound | include/jh/cache.hpp:44-55 | the bound holds after every insertion |
| Sessions.AgreesWithTable | src/session.cpp:53-93 | after any run of issuing, validating, revoking and waiting, whatever was evicted, a validation says what the table alone says if and only if it is not in the second of expiry with a live cache entry |
| Sessions.IssuedIsAccepted | src/session.cpp:53-88 | a session that was issued is accepted, for its account, until the second it expires in, whatever is issued, validated or revoked for others and whatever the cache gives up meanwhile |
| Sessions.IssuedRows | src/db.cpp:483-497 | issuing leaves exactly the new row, good for thirty days, and the rows whose last second has not passed |
| Sessions.RevokedRows | src/session.cpp:90-93 | revoking leaves exactly the rows of accounts with another name |
| Sessions.RevokedIsRefused | src/session.cpp:70-93 | a session of a revoked account, or one that was never issued, is refused ever after |
| Sessions.TokenIs | src/session.cpp:39-49 | a token is 64 lower-case hexadecimal digits, nothing else |
| Sessions.RandomToken | src/session.cpp:24-37 | the token of 32 random bytes is two lower-case hexadecimal digits for each, and passes the format check |
| Sessions.AgreesOutsideLastSecond | src/session.cpp:70-88 | in particular always in any other second |
| Sessions.LastSecondDisagrees | src/session.cpp:53-88 | the exception is real: a concrete session still good a fifth of a second into its last second |
| Sessions.CacheStaysBounded | src/session.cpp:16-16 | the cache never holds more than 200000 entries |
| Sessions.TableIsItsOwn | src/session.cpp:53-93 | the cache never influences the table |
| Sessions.SessionStore.Issue | src/session.cpp:53-68 | up to three attempts; the first row the database takes is cached |
| Sessions.SessionStore.Validate | src/session.cpp:70-88 | answer and new state of a validation |
| Sessions.SessionStore.RevokeAccount | src/session.cpp:90-93 | the account's rows go, by the table's comparison of names, and the cache is emptied |
| SessionSteps.RevokedRefusedIffAlone | src/session.cpp:53-93 | sessions issued, validated and revoked command by command, in every interleaving that keeps to a policy of overlaps: no validation begun after a revocation returned lets one of its sessions pass, if and only if neither an issue nor a validation of the account overlaps a revocation of it |
| SessionSteps.RevokedForGood | src/session.cpp:90-93 | once such a revocation has returned, no session issued to the account until then is ever accepted again, whatever happens later |
| SessionSteps.StepKeeps | src/session.cpp:53-93 | every command keeps revoked sessions out of the table and the cache, under such a policy |
| SessionSteps.RevokeInIssue | src/session.cpp:62-63 | a revocation between the insertion of a session and its caching leaves it cached |
| SessionSteps.IssueInRevoke | src/session.cpp:62-63 | so does an issue that begins during a revocation |
| SessionSteps.RevokeInValidate | src/session.cpp:78-86 | so does a revocation between finding a row and caching it |
| SessionSteps.ValidateInRevoke | src/session.cpp:78-86 | so does a validation that begins during a revocation |
| SessionSteps.NextPasses | src/session.cpp:75-77 | and the next validation lets the session that was left behind pass |
| SessionFlow.IssuedAlone | src/session.cpp:53-68 | the commands of an issue nobody interferes with do what the sequential model of the request says, to the table and the cache |
| SessionFlow.ValidatedAlone | src/session.cpp:70-88 | those of a validation answer what the sequential one answers and leave the cache it leaves |
| SessionFlow.RevokedAlone | src/session.cpp:90-93 | those of a revocation take the account's rows and empty the cache; exactly its sessions are revoked |
| SessionFlow.FailedAlone | src/session.cpp:62-62 | an operation whose database command fails has changed nothing |
| SessionFlow.EvictionIsHarmless | src/session.cpp:70-88 | a session whose cache entry was given up is accepted exactly when the table says so, and nobody else's answer changes |
| SessionFlow.RestartAnswers | src/session.cpp:16-16 | after a restart the table alone decides |
| SessionSteps.DeletionIffUncached | src/db.cpp:416-424 | deleting an account leaves the cache alone: right after it a session of the account is refused if and only if no live entry is cached |
| SessionSteps.DeletedStaysAccepted | src/db.cpp:416-424 | a run in which the session of a deleted account stays accepted |

## Left out

- The cryptographic strength of MD5 and XXTEA.
- The JSON library: documents are datatypes; members of an unexpected JSON type (which make the library throw) are not modelled.
- LoadoutSets.RunIsFair: persons without a name may repeat, as in the source; PoolServes.BuiltRunIsFair excludes them.
- SaveEdit.EditDatExact: stated for the mode that opened the text; a wrong key whose result happens to begin like JSON is not excluded, and the override table is taken not to change between opening and closing.
- `Md5.Md5Ctx.Update`: requires 8 times the length to fit size_t.
- Allocation limits, `std::bad_alloc` and lengths beyond size_t.
- Push hub: presence lists and map broadcasts, the texts of messages, idle timeouts (a handler may leave at any time instead); an expired weak_ptr sender counts as closed; one start of the hub, no restart.
- Sockets, polling, WSA calls and TLS: byte streams and atomic steps instead.
- HTTP routing, admin pages, update manifests, file serving and file storage.
- SQL text, escaping, schema and transactions: the tables are maps over folded names, names fit their columns, and the ladder's statements succeed.
- Display nicks, heads and the identity taken from saves; they never touch what the theorems speak about.
- Ladder.RebuildRanks: fighters of equal power may come in either order, as std::sort leaves it open.
- Ranks, `tanh` and rounding of the score gained in a fight: the gain is a parameter; score windows when an enemy is searched: the enemy is a parameter.
- PoolServes.BuiltRunIsFair: one week with one pool; a new week starts from an empty row.
- Quota.AtMost25ADay: a request is at one instant; one that reads the clock on both sides of a change of week serves the old week on the new day, which Quota.AtMost25AWeekADay covers.
- The version strings of the board and the calendar texts of the response.
- `src/lunjian_pool.cpp`'s seeds and generator: shuffles and draws are arbitrary, which covers every generator.
- JsonScan.GetStringIsExact: objects printed compactly with the escapes the clients use; \u escapes in values are read as a question mark and are outside the printed form.
- Resp: connecting, authentication and reconnecting after an error.
- Mail.StoreFollowsRun: operations one after the other; overlapping ones are the subject of MailSteps, which does not follow the contents of the values. Commands succeed and one clock drives server and Redis.
- Mail.ListIsExact: the order of a listing is left open, and the whole listing is at one instant.
- Scheduler: a process that dies while sending; its entry is then lost like one whose send threw.
- Sessions.AgreesWithTable: one instant per request, a database that answers and no deletion of accounts; SessionSteps has the single commands, failing databases and deletions. Random tokens are taken to have fresh digests.
- SessionSteps.RevokedRefusedIffAlone: a full cache gives up any entry at any time, and one clock drives database and cache.
- Cache: the two-lock protocol of `get`; each call is atomic here.
