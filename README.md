# SharePoint-to-Chroma sync: the incremental pass and the webhook run gate

This project models two parts of a service that mirrors documents from a
Microsoft Graph drive into a Chroma vector collection.

**The synchronisation pass** (`main` in `create_vectordb.py`):

- It reads the saved watermark, a map from drive item id to the `lastModifiedDateTime` seen on the last pass.
- It records the token of every listed file.
- It skips files whose token did not change. It loads and chunks the rest.
- The owner of a new chunk is its `file_id` metadata. The pass deletes every old chunk of each such owner, stamps each chunk with a fresh `uuid`, and adds the chunks with their embeddings.
- It deletes the chunks of every recorded id that is no longer listed.
- Only then does it save the new watermark.

**The run gate** (`webhook_listener.py`):

- It echoes Graph's validation handshake.
- It acknowledges every other request.
- It starts a refresh only outside a cooldown and only when no refresh holds the lock.
- After a refresh returns, it arms a cooldown that lasts the refresh's duration plus five seconds.

Modules:

- `Common` (`common.dfy`): documents, metadata keys, `Option`.
- `Loading` (`loading.dfy`): the extension dispatch and tagging of `load_document`, and `chunk_documents`.
- `Store` (`store.dfy`): the Chroma collection as a class over a map from chunk id to entry.
- `Sync` (`sync.dfy`): `main`, `embed_and_store`, and the metadata file.
- `Gate` (`gate.dfy`): the listener's globals as the class `Listener`, plus a pure state machine with its invariant.

Foreign collaborators are parameters:

- the format loaders and the Whisper transcription (`Loaders`);
- the text splitter (`splitText`);
- the embedding call (`embed`, where None means it raised);
- the drive listing (`listing`).

The `uuid4` values and the ids Chroma assigns come from the store's counter, so they are always fresh.

Two behaviours of the code are worth noting; the model follows the code:

- The new watermark records the current token of every listed file. This includes a file whose loader raised or returned nothing, and a file whose documents split into nothing but empty chunks. Such a file adds no chunks, so its old chunks are never deleted. It is not retried on the next pass, so those stale chunks stay.
- An exception from the embedding call aborts the whole pass. By then the deletions of `embed_and_store` have already been made. The deleted ids are not cleaned up, and the watermark is not saved. There is no per-file isolation of failures.

## Model

| member | source | states |
|---|---|---|
| Loading.Extension | create_vectordb.py:72 | The extension is empty or begins with a dot, is a proper suffix of the name, and holds no further dot or slash |
| Loading.ExtensionOfName | create_vectordb.py:72 | A name whose stem has a non-dot character and no slash has the text after its last dot as its extension |
| Loading.FormatOf | create_vectordb.py:82-108 | A loader is chosen exactly for the nine supported extensions; `.mp3`/`.mp4` and only they go to transcription, `.xls`/`.xlsx` and only they to the Excel loader |
| Loading.LoadDocument | create_vectordb.py:71-120 | The result is the loader's documents, each tagged with `source` = url and `file_id` = the file id; an unsupported extension (and any loader failure) gives [] |
| Loading.SplitKeepsMetadata | create_vectordb.py:134 | Every chunk carries the metadata of one of the documents it was split from |
| Loading.KeepNonEmpty | create_vectordb.py:135 | A chunk is kept if and only if it is among the split chunks and its page content is not empty; nothing is added |
| Loading.KeepNonEmptyCounts | create_vectordb.py:135 | Every non-empty chunk is kept exactly as many times as it occurs, and no empty chunk is kept |
| Loading.KeepNonEmptyKeepsAll | create_vectordb.py:135 | When no chunk is empty, the filter returns the chunks unchanged and in order |
| Loading.ChunksOfLoadedFile | create_vectordb.py:106-135 | Every chunk of a loaded file is non-empty and keeps the file's `source` and `file_id` |
| Store.OwnersPartition | create_vectordb.py:148-156 | Two different ids never match the same chunk, and one owner's chunks together with the rest make up the whole store |
| Store.DropOwnersScoped | create_vectordb.py:148-156 | After deleting the chunks of a set of owners, those owners have none left and every other owner keeps exactly its chunks |
| Store.DropAbsentOwner | create_vectordb.py:153-158 | Deleting for an owner with no chunks leaves the store unchanged |
| Store.DropOneMore | create_vectordb.py:148-156 | Deleting one more owner's chunks is the same as dropping the enlarged set of owners |
| Store.EmbedAll | create_vectordb.py:164 | Embedding succeeds exactly when every text embeds, and then gives one vector per text, in order |
| Store.Placed | create_vectordb.py:164 | The added chunks occupy exactly the consecutive fresh ids from the base, each holding its document and vector |
| Store.ReplaceScoped | create_vectordb.py:146-164 | After delete-then-insert, an owner of a new chunk has exactly its new chunks and every other owner keeps exactly its old ones |
| Store.VectorStore.Delete | create_vectordb.py:154 | The given ids are removed and nothing else changes |
| Store.VectorStore.AddDocuments | create_vectordb.py:164 | The call succeeds exactly when every page content embeds; then every document is added under a fresh id, otherwise the store is unchanged |
| Sync.RecordedKeys | create_vectordb.py:175-176 | The new watermark's keys are exactly the listed ids, skipped or not |
| Sync.RecordedToken | create_vectordb.py:175-176 | A listed file's token is recorded unless a later listing of the same id overrides it |
| Sync.RecordedWhenDistinct | create_vectordb.py:175-176 | With distinct ids, every listed file's own token is recorded |
| Sync.DeletedAreUnlisted | create_vectordb.py:198 | An id is deleted if and only if it was recorded before and is not listed now; with an empty previous watermark nothing is deleted |
| Sync.MissingTokenSkipsNewFile | create_vectordb.py:177 | A never-recorded file listed without a modification time counts as unchanged, since `dict.get` reads the missing id as None |
| Sync.NewChunksOwned | create_vectordb.py:175-189 | Every collected chunk is non-empty and owned by a listed file that changed and whose loader returned documents |
| Sync.NotAnOwner | create_vectordb.py:177-185 | An id none of whose listings is changed with documents owns no new chunk |
| Sync.OwnerIsListed | create_vectordb.py:175-189 | Every owner of a new chunk is a listed id |
| Sync.StampedAt | create_vectordb.py:160-161 | Setting `uuid` on a chunk changes neither its owner nor its page content |
| Sync.StampedKeepsOwners | create_vectordb.py:146-161 | Stamping keeps the set of owners and the page contents of the chunks |
| Sync.AddedAfterDeleting | create_vectordb.py:146-164 | Deleting the owners' chunks, stamping, then adding gives the store that `embed_and_store` specifies |
| Sync.InsertedScoped | create_vectordb.py:146-164 | After the insertion step, an owner of a new chunk has exactly its new chunks and every other owner keeps its old ones |
| Sync.PassRemovesDeleted | create_vectordb.py:198-211 | After a pass, no chunk is owned by a previously recorded id that is not listed any more |
| Sync.PassKeepsNonContributing | create_vectordb.py:177-189 | A file that owns no new chunk keeps exactly its old chunks, provided it is still listed or was never recorded. This holds whether it was unchanged, loaded nothing, or split into empty chunks only |
| Sync.PassReplacesChanged | create_vectordb.py:146-211 | The owner of a new chunk ends the pass with exactly its new chunks, its old ones having been deleted first |
| Sync.UnchangedFileUntouched | create_vectordb.py:175-179 | A file whose token did not change adds no chunks, keeps its chunks, and keeps its token in the new watermark |
| Sync.EmptyLoadKeepsOldChunks | create_vectordb.py:176-185 | A file whose loader returns nothing adds no chunks and keeps its old chunks, yet its new token is recorded |
| Sync.AbortKeepsNonOwners | create_vectordb.py:146-164 | When embedding raises, a file that owns no new chunk still has all of its old chunks |
| Sync.AbortLeavesUnchangedFile | create_vectordb.py:175-179 | When embedding raises, an unchanged listed file still has all of its old chunks |
| Sync.MetadataFile.Load | create_vectordb.py:122-126 | The saved map, or an empty map when nothing was saved yet |
| Sync.MetadataFile.Save | create_vectordb.py:128-130 | The saved map becomes the given one |
| Sync.DeleteOwners | create_vectordb.py:204-211 | Every chunk owned by one of the ids is deleted and nothing else; fresh ids are untouched |
| Sync.StampAll | create_vectordb.py:160-161 | Each chunk gets the next fresh `uuid`, in order; stored chunks are unchanged |
| Sync.EmbedAndStore | create_vectordb.py:137-165 | On success the store is the delete-then-insert result; when embedding raises, the deletions stand and nothing is added |
| Sync.CollectChunks | create_vectordb.py:171-189 | The loop builds exactly the recorded watermark and the concatenated chunks of the changed files that loaded documents |
| Sync.RunPass | create_vectordb.py:167-219 | The pass completes exactly when embedding succeeds. The store is then the specified pass result, and the watermark saved is the recorded one. On abort nothing is saved, and only the owners' old chunks are gone |
| Gate.Respond | webhook_listener.py:40-58 | The answer is the echoed token with status 200 if and only if the request carries a non-empty validation token, otherwise the acknowledgement |
| Gate.Pending | webhook_listener.py:35-36 | The timers still armed after a tick are exactly those due later |
| Gate.TickKeepsInv | webhook_listener.py:35-36 | A timer firing keeps the gate invariant: the cooldown is active exactly while its timer is armed |
| Gate.AtMostOneRefresh | webhook_listener.py:20-51 | After any sequence of notifications, completions and ticks, at most one refresh is running, and none runs during a cooldown |
| Gate.RunKeepsInv | webhook_listener.py:12-53 | Every sequence of events keeps the gate invariant |
| Gate.HandshakeEchoed | webhook_listener.py:40-43 | A handshake returns its token with status 200 and starts no refresh |
| Gate.NotificationAcknowledged | webhook_listener.py:45-58 | Every non-handshake request is acknowledged with `received` |
| Gate.UnparsableBodyStartsNothing | webhook_listener.py:45-56 | A body that fails to parse starts nothing |
| Gate.CooldownBlocksRefresh | webhook_listener.py:49-53 | During a cooldown a notification changes nothing |
| Gate.LockBlocksRefresh | webhook_listener.py:20-22 | While a refresh holds the lock, a notification starts no second one |
| Gate.NotificationStartsRefresh | webhook_listener.py:49-51 | A parsed notification outside a cooldown with the lock free starts exactly one refresh, timed from now |
| Gate.FinishArmsCooldown | webhook_listener.py:26-36 | A returning refresh releases the lock, sets the cooldown, and arms one timer due at its duration plus five ticks from now |
| Gate.RaisingRefreshArmsNothing | webhook_listener.py:24-27 | A refresh that raises releases the lock and arms no cooldown |
| Gate.CooldownLasts | webhook_listener.py:33-36 | The armed cooldown stays active for less than the refresh's duration plus five ticks, and ends exactly then |
| Gate.ResetReopens | webhook_listener.py:12-15 | `reset_cooldown` changes only the flag, and a following notification starts a refresh |
| Gate.SecondRefreshDuringCooldown | webhook_listener.py:20-24 | As written, two notifications whose threads both find the lock free lead to a second refresh running during the first one's cooldown |
| Gate.Listener.RunMainWithLock | webhook_listener.py:17-26 | The refresh starts if and only if the lock was free, and then takes it |
| Gate.Listener.Webhook | webhook_listener.py:38-58 | The response is `Respond(req)`, and a refresh starts exactly when the request triggers one and the lock is free |
| Gate.Listener.FinishRun | webhook_listener.py:27-36 | The lock is released; a completed refresh arms the cooldown and its timer |
| Gate.Listener.Tick | webhook_listener.py:35-36 | Due timers fire and reset the cooldown; the invariant is kept |
| Gate.Listener.ResetCooldown | webhook_listener.py:12-15 | Only the cooldown flag changes, to false |

## Left out

- The OAuth token request, the recursive drive traversal and the file download (`get_access_token`, `fetch_files`) are HTTP calls to Microsoft Graph. The listing is an input sequence of files, each already downloaded.
- `register_subscription.py`, `list_subscription.py` and `streamlit_app.py` are not part of this model.
- The format loaders, temporary files and Whisper transcription are foreign calls. `Loaders` stands for them, and None stands for any exception they raise.
- `RecursiveCharacterTextSplitter` is a parameter mapping a text to its pieces. Its chunk size and overlap are not modelled.
- The embedding model is a parameter. Chroma's persistence and its real id format are not modelled. Ids and `uuid` values come from one counter, and a `uuid` is the counter value in decimal.
- JSON reading and writing of `processed_files.json` is a stored map value. A file holding malformed JSON, which makes `load_processed_metadata` raise, is not modelled.
- Exceptions other than a failed embedding are not modelled: a failing Chroma call, or a download failing mid-listing.
- Loading.Lower: lower-cases ASCII letters only, while Python's `str.lower` also folds non-ASCII letters. Every supported extension is ASCII, but a non-ASCII extension that would fold into one is not recognised.
- Sync.RunPass: the final summary that reopens the store and prints its size is reduced to returning the number of stored chunks.
- Threads and wall-clock time are not modelled. A refresh is a start event and a completion event, time is whole ticks, and a timer is its due tick. Timers firing inside one `Tick` are not ordered.
- Gate.Listener.RunMainWithLock: treats the `lock.locked()` test and the `with lock` acquisition as one atomic step. The separate steps are modelled only by `Gate.ThreadedStep`, which shows the race listed under Findings.
- Gate.FinishArmsCooldown: the source overwrites `cooldown_timer` without cancelling an older timer. In the atomic model no older timer can still be armed when a refresh finishes, so that case does not arise.
- The logging `print` calls are not modelled.

## Findings

| source | as written | input that shows it | evidently intended | confidence | as-written member | corrected member |
|---|---|---|---|---|---|---|
| webhook_listener.py:20-24 | `lock.locked()` is tested, and the lock is taken later by `with lock`. A thread that passes the test while the lock is free waits for the lock and then runs a refresh, even if a cooldown was armed meanwhile | Two notifications arrive together. Both worker threads find the lock free. The first refresh returns and arms the cooldown. The second thread then takes the lock and refreshes during the cooldown | At most one refresh per burst, with none during a cooldown ("Already processing. Skipping...") | medium, not executed | Gate.SecondRefreshDuringCooldown | Gate.AtMostOneRefresh |
