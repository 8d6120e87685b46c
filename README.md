# ChunkListDecrypter, modelled in Dafny

InflatableDonkey restores iCloud backups. A storage host sends one
forward-only stream of encrypted chunks together with a chunk list (the
protobuf `StorageHostChunkList`), whose entries give each chunk's offset,
length, checksum and wrapped key. `ChunkListDecrypter` walks that list
against the stream:

- an entry whose offset is ahead of the running offset ends the walk;
- an entry whose offset is behind it is a duplicate and is skipped;
- every other entry advances the running offset by its length;
- each processed entry is read through a bounded view of its length:
  - a checksum already in the content-addressed chunk store is returned as stored;
  - a type 0x01 key is unwrapped, and the view is decrypted with AES-CFB-128 into a store writer;
  - any other key is passed over;
  - whichever of these paths was taken, the view is drained so that the next entry starts at the right byte.

The result maps `(containerIndex, i)` to what the store holds for the checksum of entry `i`.

The model has these modules:

- `Types`: bytes, chunk list entries, chunk references, chunks, and `Result` (a value or an `IOException`).
- `Cfb`: CFB-128 mode with a zero IV, as a byte-at-a-time state machine. It runs over an abstract block function; decryption is proved to undo encryption and vice versa.
- `Streams`: three stream classes.
  - The shared transport stream: bytes, a cursor, a closed flag, and whether it fails after its last byte.
  - commons-io's `BoundedInputStream`.
  - Bouncy Castle's `CipherInputStream`.
- `ChunkStores`: the store as a map from checksum to plaintext, and the writer it hands out.
  - `busy` is the set of checksums for which a writer is refused, because another contributor holds it.
  - `pending` is what such a contributor has committed by the time the writer is refused. The re-query at line 138 then finds it.
  - `accepts` says whether a closed writer's bytes take.
- `OffsetWalk`: which entries are processed. It is pure and independent of bytes and store.
- `ChunkListSpec`: what one processed entry does (`ChunkStep`), and the loop as a left fold over list prefixes (`AfterEntries`).
- `Engine`: the class `ChunkListDecrypter`. Each of its methods is proved to compute what `ChunkListSpec` describes.
- `ChunkListProperties`: what `apply` guarantees, proved about `AfterEntries`.

Bytes are `bv8`. Lengths and offsets are unbounded naturals.

How the model treats errors and partial writes:

- **Store errors.** The comment at line 159 says that chunk store errors are lost. In the code, `copy` (lines 155-163) discards only errors raised by `close`, through `IOUtils.closeQuietly`. An exception from `IOUtils.copy` (line 157) propagates, including one raised by a read.
  - The model surfaces every read failure as an `IOException`.
  - It lets the store refuse a closed writer's bytes (`accepts`).
  - Writes to the writer never fail (see "Left out").
- **Partial writes.** A writer is closed in the `finally` block even when the copy failed, so whatever it received is handed to the store. The model does the same: `Engine.ChunkListDecrypter.Copy` commits the plaintext of the bytes read before the failure.

## Model

| member | source | states |
|---|---|---|
| Engine.ChunkListDecrypter.Apply | src/main/java/com/github/horrorho/inflatabledonkey/chunk/engine/ChunkListDecrypter.java:73-103 | the returned map (or IOException) and the store and cursor left behind are exactly `ApplyOutcome` of the chunk list; the input stream is closed on every exit, including by IOException |
| Engine.ChunkListDecrypter.ChunkFromStream | src/main/java/com/github/horrorho/inflatabledonkey/chunk/engine/ChunkListDecrypter.java:105-115 | one processed entry through a bounded view with close propagation off: the result, the store and the cursor are `ChunkStep`; the shared stream's closed state is untouched |
| Engine.ChunkListDecrypter.ChunkFromBounded | src/main/java/com/github/horrorho/inflatabledonkey/chunk/engine/ChunkListDecrypter.java:117-127 | a store hit returns the stored chunk, reads nothing and writes nothing; otherwise the decrypt path's reads, store update and result; IOException exactly when the decrypt path's drain fails |
| Engine.ChunkListDecrypter.Decrypt | src/main/java/com/github/horrorho/inflatabledonkey/chunk/engine/ChunkListDecrypter.java:129-139 | a supported key with an available writer reads min(length, remaining) bytes and commits their CFB decryption under the key's last 16 bytes; a refused writer reads nothing, and the store may meanwhile gain the holder's chunk; an unsupported key reads and writes nothing; the result is the store's lookup afterwards |
| Engine.ChunkListDecrypter.Store | src/main/java/com/github/horrorho/inflatabledonkey/chunk/engine/ChunkListDecrypter.java:141-149 | with a writer, the store gets the decryption of exactly the bytes the view lets through; without one, nothing is read and the store changes only by the writer's holder committing its chunk |
| Engine.ChunkListDecrypter.Consume | src/main/java/com/github/horrorho/inflatabledonkey/chunk/engine/ChunkListDecrypter.java:151-153 | draining a view advances the shared cursor by min(remaining budget, bytes left) and fails exactly when the transport runs dry early while broken or closed; the shared stream stays open |
| Engine.ChunkListDecrypter.Copy | src/main/java/com/github/horrorho/inflatabledonkey/chunk/engine/ChunkListDecrypter.java:155-163 | both streams are closed whether or not the copy failed (the writer is closed afterwards), so the store commits the plaintext of every byte read, even after a failure; `ok` reports whether the copy itself threw |
| Engine.CopyAll | src/main/java/com/github/horrorho/inflatabledonkey/chunk/engine/ChunkListDecrypter.java:157 | IOUtils.copy: the bytes read are exactly the next min(budget, available) bytes of the transport, the writer holds their decryption, and the copy fails exactly when draining fails |
| ChunkListSpec.AesKey | src/main/java/com/github/horrorho/inflatabledonkey/chunk/engine/ChunkListDecrypter.java:133 | the AES key has 16 bytes and is the wrapped key with its leading 0x01 removed |
| ChunkListSpec.ChunkStep | src/main/java/com/github/horrorho/inflatabledonkey/chunk/engine/ChunkListDecrypter.java:105-149 | per processed entry: the cursor advances by min(length, remaining) on every path; IOException iff the drain fails; a store hit writes nothing and returns the stored chunk; an unsupported key writes nothing and returns nothing; a refused writer writes nothing itself, and the re-query finds a chunk exactly when the writer's holder has committed one; a decryption commits exactly this entry's plaintext; the result is the store's lookup afterwards |
| ChunkListSpec.Ciphertext | src/main/java/com/github/horrorho/inflatabledonkey/chunk/engine/ChunkListDecrypter.java:108-109 | the bytes a bounded view lets through number min(length, remaining) |
| ChunkListSpec.KeepAt | src/main/java/com/github/horrorho/inflatabledonkey/chunk/engine/ChunkListDecrypter.java:93-95 | at an entry whose offset equals the running offset, the loop advances the offset by its length, records the entry, applies `ChunkStep` and adds the returned chunk under (containerIndex, i) |
| ChunkListSpec.SkipAt | src/main/java/com/github/horrorho/inflatabledonkey/chunk/engine/ChunkListDecrypter.java:89-91 | an entry behind the running offset leaves offset, result, store and cursor as they were |
| ChunkListSpec.StopAt | src/main/java/com/github/horrorho/inflatabledonkey/chunk/engine/ChunkListDecrypter.java:86-88 | an entry ahead of the running offset ends the loop and changes nothing else |
| ChunkListSpec.KeepStep | src/main/java/com/github/horrorho/inflatabledonkey/chunk/engine/ChunkListDecrypter.java:93-95 | the step of the loop for a processed entry: new world, offset, indices, result and whether it threw |
| ChunkListSpec.PassStep | src/main/java/com/github/horrorho/inflatabledonkey/chunk/engine/ChunkListDecrypter.java:86-91 | the step of the loop for an entry it does not process: a bad offset ends it, anything else leaves it unchanged |
| ChunkListSpec.HaltedStays | src/main/java/com/github/horrorho/inflatabledonkey/chunk/engine/ChunkListDecrypter.java:86-88 | after a break or an exception, later entries change nothing |
| OffsetWalk.WalkKeepsInvariant | src/main/java/com/github/horrorho/inflatabledonkey/chunk/engine/ChunkListDecrypter.java:83-93 | processed entries are in list order, each one's offset is the total length of those processed before it, and the running offset is the total length of all processed entries |
| OffsetWalk.KeptIff | src/main/java/com/github/horrorho/inflatabledonkey/chunk/engine/ChunkListDecrypter.java:85-93 | an entry is processed if and only if the walk has not stopped before it and its offset equals the running offset there |
| OffsetWalk.WalkExtends | src/main/java/com/github/horrorho/inflatabledonkey/chunk/engine/ChunkListDecrypter.java:83-93 | a longer list only extends the walk: earlier decisions stand, and the running offset never decreases |
| OffsetWalk.BadOffsetStops | src/main/java/com/github/horrorho/inflatabledonkey/chunk/engine/ChunkListDecrypter.java:86-88 | at the first entry ahead of the running offset the walk stops; no entry at or after it is processed |
| OffsetWalk.DuplicateSkipped | src/main/java/com/github/horrorho/inflatabledonkey/chunk/engine/ChunkListDecrypter.java:89-91 | an entry behind the running offset leaves the walk as it was and is never processed |
| OffsetWalk.StoppedStays | src/main/java/com/github/horrorho/inflatabledonkey/chunk/engine/ChunkListDecrypter.java:88 | once stopped, later entries change nothing |
| OffsetWalk.ContiguousKeepsAll | src/main/java/com/github/horrorho/inflatabledonkey/chunk/engine/ChunkListDecrypter.java:83-96 | when every entry starts where the previous ones end, every entry is processed in order and the running offset is the total length |
| OffsetWalk.InvariantOfKeep | src/main/java/com/github/horrorho/inflatabledonkey/chunk/engine/ChunkListDecrypter.java:93 | processing an entry at the running offset keeps the walk invariant |
| OffsetWalk.InvariantOfLonger | src/main/java/com/github/horrorho/inflatabledonkey/chunk/engine/ChunkListDecrypter.java:83-84 | the walk invariant survives the loop moving on to the next entry of the list (`i++`, `list.get(i)`), before that entry is classified |
| OffsetWalk.InvariantOfLast | src/main/java/com/github/horrorho/inflatabledonkey/chunk/engine/ChunkListDecrypter.java:83-84 | the same move to the next entry, stated for the last entry of a list |
| ChunkListProperties.LoopFollowsWalk | src/main/java/com/github/horrorho/inflatabledonkey/chunk/engine/ChunkListDecrypter.java:83-96 | the loop processes exactly the entries the offset walk keeps, whatever the stream holds and whatever the store answers; only an IOException cuts the list short |
| ChunkListProperties.LoopKeptIndices | src/main/java/com/github/horrorho/inflatabledonkey/chunk/engine/ChunkListDecrypter.java:83 | processed indices are indices of the list |
| ChunkListProperties.CursorFollowsOffset | src/main/java/com/github/horrorho/inflatabledonkey/chunk/engine/ChunkListDecrypter.java:93-111 | however the loop ends, the cursor has advanced by the running offset, capped by the bytes available; skipped entries and entries after a bad offset read nothing |
| ChunkListProperties.ReadsKeptLengths | src/main/java/com/github/horrorho/inflatabledonkey/chunk/engine/ChunkListDecrypter.java:93-111 | without an exception, the cursor advances by the total length of the processed entries, capped by the bytes available |
| ChunkListProperties.DrainedAdds | src/main/java/com/github/horrorho/inflatabledonkey/chunk/engine/ChunkListDecrypter.java:108-111 | draining a then b bytes takes as much as draining a + b |
| ChunkListProperties.ResultKeys | src/main/java/com/github/horrorho/inflatabledonkey/chunk/engine/ChunkListDecrypter.java:94-95 | every key of the result carries the container index and the index of a processed entry |
| ChunkListProperties.ResultIsPostLookup | src/main/java/com/github/horrorho/inflatabledonkey/chunk/engine/ChunkListDecrypter.java:94-95 | for every processed entry, the result holds exactly what the store reported for its checksum right after that entry, and nothing if the store had nothing |
| ChunkListProperties.ResultMatchesStore | src/main/java/com/github/horrorho/inflatabledonkey/chunk/engine/ChunkListDecrypter.java:94-95 | every chunk in the result has its entry's checksum and is what the store still holds for that checksum at the end |
| ChunkListProperties.StoreKeepsChunks | src/main/java/com/github/horrorho/inflatabledonkey/chunk/engine/ChunkListDecrypter.java:119-148 | chunks already in the store are never changed or removed |
| ChunkListProperties.NewChunksFromKept | src/main/java/com/github/horrorho/inflatabledonkey/chunk/engine/ChunkListDecrypter.java:141-148 | every checksum newly in the store belongs to a processed entry |
| ChunkListProperties.AllStoredOfPrefix | src/main/java/com/github/horrorho/inflatabledonkey/chunk/engine/ChunkListDecrypter.java:83-93 | if every entry the walk processes is stored, the same holds for every prefix of the list |
| ChunkListProperties.AllStoreHitsWriteNothing | src/main/java/com/github/horrorho/inflatabledonkey/chunk/engine/ChunkListDecrypter.java:119-123 | when every processed entry is already stored, the store is left unchanged and every processed entry takes the store-hit path |
| ChunkListProperties.AllStoreHitsReturnStored | src/main/java/com/github/horrorho/inflatabledonkey/chunk/engine/ChunkListDecrypter.java:119-123 | when every processed entry is already stored, the result maps each processed entry to the stored chunk, unchanged |
| ChunkListProperties.BadOffsetEndsLoop | src/main/java/com/github/horrorho/inflatabledonkey/chunk/engine/ChunkListDecrypter.java:86-88 | after a bad offset the final result, store and cursor are those from before that entry |
| ChunkListProperties.DuplicatePairReadOnce | src/main/java/com/github/horrorho/inflatabledonkey/chunk/engine/ChunkListDecrypter.java:89-91 | two entries for the same bytes: only the first is processed, its bytes are read once, and only it appears in the result |
| ChunkListSpec.KeySupported | src/main/java/com/github/horrorho/inflatabledonkey/chunk/engine/ChunkListDecrypter.java:130 | the key-format check: a wrapped key is supported when it has 0x11 bytes and its first is 0x01 |
| ChunkListSpec.KeyFormat | src/main/java/com/github/horrorho/inflatabledonkey/chunk/engine/ChunkListDecrypter.java:130-133 | a key passes the check exactly when it is the tag 0x01 followed by some 16-byte AES key |
| ChunkListSpec.PathOf | src/main/java/com/github/horrorho/inflatabledonkey/chunk/engine/ChunkListDecrypter.java:119-147 | the path an entry takes: a store hit exactly when the checksum is stored; an unsupported key exactly on a miss with a bad key; a decryption exactly on a miss with a supported key and an available writer |
| ChunkListSpec.AfterEntries | src/main/java/com/github/horrorho/inflatabledonkey/chunk/engine/ChunkListDecrypter.java:83-96 | the loop after visiting a prefix of the list: the world it leaves stays within the stream's bytes |
| ChunkListSpec.ApplyOutcome | src/main/java/com/github/horrorho/inflatabledonkey/chunk/engine/ChunkListDecrypter.java:97-102 | only an IOException discards the result map; after a bad offset the chunks gathered so far are still returned |
| ChunkListSpec.DecryptedStep | src/main/java/com/github/horrorho/inflatabledonkey/chunk/engine/ChunkListDecrypter.java:134-136 | on the decrypting path the store gains the plaintext of the min(length, remaining) bytes from the cursor on |
| OffsetWalk.Classify | src/main/java/com/github/horrorho/inflatabledonkey/chunk/engine/ChunkListDecrypter.java:86-92 | an entry ends the walk exactly when its offset is ahead of the running offset, and is processed exactly when it equals it |
| OffsetWalk.Walk | src/main/java/com/github/horrorho/inflatabledonkey/chunk/engine/ChunkListDecrypter.java:83-96 | the store-free walk over the list: each entry is processed at most once |
| ChunkListProperties.KeptAtOffset | src/main/java/com/github/horrorho/inflatabledonkey/chunk/engine/ChunkListDecrypter.java:85-93 | when the loop reaches an entry the walk keeps, the running offset is that entry's declared offset |
| ChunkListProperties.ReadsAtDeclaredOffset | src/main/java/com/github/horrorho/inflatabledonkey/chunk/engine/ChunkListDecrypter.java:93-111 | when the loop reaches an entry the walk keeps, the stream has given up exactly the bytes before its declared offset (or all it had), so every entry is read at its own offset |
| ChunkListProperties.StoreAfterKept | src/main/java/com/github/horrorho/inflatabledonkey/chunk/engine/ChunkListDecrypter.java:93-95 | the store after a processed entry is what that entry's step leaves |
| ChunkListProperties.DecryptsAtDeclaredOffset | src/main/java/com/github/horrorho/inflatabledonkey/chunk/engine/ChunkListDecrypter.java:93-136 | a processed entry on the decrypting path commits the plaintext of the stream's bytes from its declared offset on, for its length or as many as remain |
| Streams.InputStream.Close | src/main/java/com/github/horrorho/inflatabledonkey/chunk/engine/ChunkListDecrypter.java:101 | closing the shared stream never fails and leaves its cursor where it was |
| Streams.BoundedInputStream.SetPropagateClose | src/main/java/com/github/horrorho/inflatabledonkey/chunk/engine/ChunkListDecrypter.java:109 | turning close propagation off changes nothing else about the view |
| ChunkStores.ChunkStore.GetChunk | src/main/java/com/github/horrorho/inflatabledonkey/chunk/engine/ChunkListDecrypter.java:119-138 | store.chunk finds a chunk exactly when the checksum is stored, with that checksum and the stored bytes |
| ChunkStores.Refused | src/main/java/com/github/horrorho/inflatabledonkey/chunk/engine/ChunkListDecrypter.java:142-147 | a refused writer adds nothing of its own: the store gains the holder's chunk for that checksum when there is one and the checksum is not yet stored, and every stored chunk stays as it was |
| Cfb.DecryptEncrypt | src/main/java/com/github/horrorho/inflatabledonkey/chunk/engine/ChunkListDecrypter.java:134-136 | CFB-128 decryption undoes encryption, for every block function and key |
| Cfb.EncryptDecrypt | src/main/java/com/github/horrorho/inflatabledonkey/chunk/engine/ChunkListDecrypter.java:134-136 | CFB-128 encryption undoes decryption, so the decrypter maps ciphertexts of each length one-to-one onto plaintexts |
| Cfb.DecryptAppend | src/main/java/com/github/horrorho/inflatabledonkey/chunk/engine/ChunkListDecrypter.java:134-136 | decrypting one more ciphertext byte appends exactly one plaintext byte, so byte-wise streaming decryption equals decrypting the whole |
| Cfb.EncryptAppend | src/main/java/com/github/horrorho/inflatabledonkey/chunk/engine/ChunkListDecrypter.java:134-136 | encrypting one more plaintext byte appends exactly one ciphertext byte |
| Cfb.DecryptPrefix | src/main/java/com/github/horrorho/inflatabledonkey/chunk/engine/ChunkListDecrypter.java:134-136 | decrypting a prefix of the ciphertext yields the same prefix of the plaintext |
| Cfb.Decrypt | src/main/java/com/github/horrorho/inflatabledonkey/chunk/engine/ChunkListDecrypter.java:134-136 | decryption preserves length |
| Cfb.Encrypt | src/main/java/com/github/horrorho/inflatabledonkey/chunk/engine/ChunkListDecrypter.java:134-136 | encryption preserves length |
| Streams.Drained | src/main/java/com/github/horrorho/inflatabledonkey/chunk/engine/ChunkListDecrypter.java:108 | a bounded view takes min(budget, bytes available) from the shared stream |
| Streams.ViewEnd | src/main/java/com/github/horrorho/inflatabledonkey/chunk/engine/ChunkListDecrypter.java:108 | when a bounded view yields no byte, it has handed out exactly the drained bytes, and it failed exactly when draining fails |
| Streams.InputStream.Read | src/main/java/com/github/horrorho/inflatabledonkey/chunk/engine/ChunkListDecrypter.java:157 | a read returns the byte at the cursor and advances it; past the end a broken stream throws and a healthy one reports the end; reading a closed stream throws |
| Streams.BoundedInputStream.Read | src/main/java/com/github/horrorho/inflatabledonkey/chunk/engine/ChunkListDecrypter.java:108 | the view reports the end once it has handed out its budget; otherwise it reads the shared stream |
| Streams.BoundedInputStream.Close | src/main/java/com/github/horrorho/inflatabledonkey/chunk/engine/ChunkListDecrypter.java:109 | with close propagation off, closing the view leaves the shared stream open |
| Streams.CipherInputStream.Read | src/main/java/com/github/horrorho/inflatabledonkey/chunk/engine/ChunkListDecrypter.java:134-136 | every byte read from the view comes out decrypted, continuing the CFB decryption of all bytes read so far |
| Streams.CipherInputStream.Close | src/main/java/com/github/horrorho/inflatabledonkey/chunk/engine/ChunkListDecrypter.java:160 | closing the cipher stream closes its view |
| ChunkStores.Lookup | src/main/java/com/github/horrorho/inflatabledonkey/chunk/engine/ChunkListDecrypter.java:119 | the lookup finds a chunk exactly when the checksum is stored, with that checksum and the stored bytes |
| ChunkStores.Commit | src/main/java/com/github/horrorho/inflatabledonkey/chunk/engine/ChunkListDecrypter.java:159-161 | the store gains exactly the closed writer's bytes for its checksum when it accepts them, and otherwise stays as it was; other checksums keep their contents |
| ChunkStores.ChunkStore.OutputStream | src/main/java/com/github/horrorho/inflatabledonkey/chunk/engine/ChunkListDecrypter.java:142-143 | a fresh, empty writer is handed out exactly when the checksum is not busy; a refusal leaves the store as it was, except for the chunk the writer's holder may have committed |
| ChunkStores.ChunkWriter.Close | src/main/java/com/github/horrorho/inflatabledonkey/chunk/engine/ChunkListDecrypter.java:161 | the first close hands what was written to the store; later closes change nothing |
| ChunkStores.ChunkWriter.Write | src/main/java/com/github/horrorho/inflatabledonkey/chunk/engine/ChunkListDecrypter.java:157 | a write appends the byte |

## Left out

- AES is not modelled. The block function is a parameter (`Cfb.BlockCipher`) of the decrypter class, so every property holds for any block function and key.
- CFB mode is modelled as Bouncy Castle's CFB-128 decrypter runs it: one byte at a time with a zero IV. `CipherInputStream`'s internal buffering is not modelled.
- Engine.CopyAll: reads and writes one byte at a time. `IOUtils.copy` moves blocks, and `CipherInputStream` buffers.
  - The bytes taken from the shared stream are the same either way.
  - After a read that throws, the writer in the model holds every byte decrypted before the failure. The real buffering may have handed it fewer.
- Protobuf accessors and the `ChunkReferences` factory are plain datatypes (`ChunkInfo`, `ChunkReference`).
- Logging and hex formatting are not modelled.
- Chunk store persistence and thread safety are not modelled. The store is one map.
  - Whether `outputStream` hands out a writer is the fixed set `busy`, standing for another contributor holding the writer.
  - What that contributor has committed when the writer is refused is the fixed map `pending`. Its chunk can land only at that moment; at other moments the model's store changes only through this decrypter.
  - Whether a closed writer's bytes take is the predicate `accepts`.
- ChunkStores.ChunkWriter.Write: never fails. A write error in the store's output stream would propagate as an `IOException`; the model does not produce one.
- Errors raised by `close` are discarded by `IOUtils.closeQuietly`. Closing is modelled as never failing.
- Engine.ChunkListDecrypter.Apply: offsets and lengths are unbounded naturals.
  - The 32-bit wrap-around of `offset += chunkLength` is not modelled.
  - commons-io's "negative maximum means unbounded" is not modelled.
- The `IOFunction` interface and the constructor's null checks are not modelled.
- The order of entries in a Java `HashMap` is not modelled. The result is a map.
- Entries of length 0 are handled as the code handles them: one at the running offset is processed, and it leaves the offset where it was. That is why `ChunkListProperties.DuplicatePairReadOnce` requires the first entry to have a positive length.
