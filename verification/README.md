# GhostVault: a Dafny model of its memory service

GhostVault keeps encrypted memories in Postgres behind a small Go daemon. This project models the
parts of it whose correctness is not visible in one function body, and proves what they promise.

| component | files | what is established |
|---|---|---|
| Sessions | `SessionModel`, `SessionManager`, `SessionLaws`, `SessionInterleaving` | the in-memory cache cannot be observed; a request is accepted exactly in time; both lifetimes hold under every interleaving of critical sections, store failures and restarts; when a revocation is final |
| Boot and handlers | `Daemon`, `DaemonServer`, `CredentialLaws` | what a restart does to credentials in each auth mode; every granted request carries the vault's key; which password, session and action token open the vault |
| Retrieval | `Scoring`, `ScoringLaws`, `Packing`, `ChunkFormat`, `Retrieval`, `RetrievalLaws` | the ranking is canonical and monotone, the session boost respects order, packing is greedy within its limits, returned text is bounded |
| Ingest and tables | `Store`, `Drafts`, `Ingest`, `IngestLaws`, `IngestContents`, `Engine`, `JsonInstance` | content dedup counts and is idempotent, what is sent reads back, what is deleted is gone, relational invariants over every run |
| Message buffer | `Messages` | the pruned table serves the same recent messages as the full log |
| Chunker | `Chunker` | exact number, lengths and coverage of overlapping segments |
| Shared | `Text`, `TextLaws` | trimming, lower-casing and sizes of text |
| Tuning | `Tuning`, `TuningState` | layered merge, patch sequences, consistent publication under interleaving |

SQL tables are maps and sequences in classes; each method of such a class is one store call. Objects that
the Go code mutates (sessions, the manager, the shared key, the store, the message log, the published tuning,
arrays sorted or reversed in place) are classes and arrays here, and each of their methods is proved equal to
one function of a value-level model. The theorems are about those functions and about all their runs.

Time is an integer and scores are reals. SHA-256 is a free constructor, hence injective. Sealing and wrapping
are authenticated: only the right key opens. The JSON library is any encoder and decoder with the three laws
of `ChunkFormat.Lawful`; `JsonInstance` exhibits one. During an ingest the embedding of any text, the check for
any live key, the lookup of any document and the insert of any chunk or document may fail; so may the lookups and
writes of boot, the credential handlers and a tuning PATCH. UUIDs are fresh numbers; users, models and vaults are
compared for equality only and are numbers too. Runes are Dafny characters.

## Where the code and its texts disagree

The model follows the code in each case.

- `internal/auth/session.go:167-168` says a row read without a data key in memory is treated as locked. The
  code accepts it with an empty key. `Daemon.AuthorizedCarriesVaultKey` shows the situation cannot arise on an
  encrypted vault.
- `docs/UNLOCK-AND-BEARER.md:71` says a restart in `session` mode invalidates all outstanding bearers. Sessions
  it does; a live action token of a plaintext vault still opens it (`Daemon.ActionTokenOutlivesSessionBoot`,
  and exactly when in `Daemon.SessionBootRevokesTokens`).
- `docs/OVERVIEW.md:80` gives the dedup fields of structured rows as kind, abstract and body. An item linked to
  a source document uses the document's id in place of the body.

## What turned out false, and exactly when it is true

- "No acceptance after Invalidate" fails when calls overlap: a request that has read the row is accepted after a
  complete Invalidate (`SessionInterleaving.InvalidatedTokenCanBeAccepted`), and one that refills the cache between
  the two deletes of Invalidate leaves a token that later requests use although nothing is in flight any more
  (`SessionInterleaving.RefilledTokenCanBeAccepted`). With a clock that does not run back, a minted token is never
  accepted again, in any continuation, if and only if no thread holds a live object or row of it, its cached object
  (and any that a creation is about to cache) has expired at every time it may still be looked up, and its row is
  past its limit and dead for every request that may still read it, pending write-throughs counted
  (`SessionInterleaving.NeverAgainIffGone`). A row that has only been idle too long is not gone, because a restart
  may bring a longer idle lifetime. Sequentially the law always holds (`SessionModel.InvalidateIsFinal`).
- "Different content is stored twice" fails when an abstract or a kind contains a newline, because the content key
  joins its fields with one (`IngestContents.KeysMayCollide`). Without newlines there two items share a key if and
  only if they agree on kind, abstract, and body or source document (`IngestContents.SameKeyIff`).
- "What is ingested reads back" fails for a bare body that is itself the text of a v2 envelope
  (`IngestLaws.PastedEnvelopeMisreads`), and only then (`IngestLaws.StoredItemReadsBack`).
- Recent messages are not always the last ones appended: validation does not relate the number kept to the number
  read (`Messages.ValidTuningMayHide`). After any run they are if and only if each successful prune of the session
  kept, or was followed by, as many messages as the reader should see (`Messages.RecentIsLastIff`).
- The debug report's boost flag can be wrong: a lookup of session keys that fails after delivering some rows applies
  no boost, and the report still flags the chunks of those rows (`Retrieval.BrokenLookupMisreports`). All flags agree
  with the scores if and only if the lookup was complete, or no ranked chunk that matches among the delivered rows
  has a score that a boost would change (`Retrieval.FlagsAgreeIff`). The results themselves are not affected.
- A larger token budget may replace the packed chunks instead of extending them
  (`Packing.LargerBudgetMayReplace`). It extends them if and only if no loadable chunk after the first one it gains
  fits what the smaller budget had left there (`Packing.LargerBudgetExtendsIff`). A larger chunk limit always
  extends (`Packing.OneMoreChunkExtends`).
- The patch-sequence law fails for patches that overlap: both are accepted and stored, and what only the first one
  set is lost (`TuningState.OverlappingPatchesLoseTheFirst`, with a concrete pair in `TuningState.TwoFlagsOverlap`).
  One store adds its patch and loses nothing if and only if the stored object is unchanged, outside the patch, since
  it was read (`TuningState.StoreAddsItsPatchIff`); the document follows the stored patches throughout a run if and
  only if that is so of every store (`TuningState.RunFollowsIff`). It is so whenever no other store falls between a
  patch's read and its own (`TuningState.PromptPatchesAreSequential`).
- The caller's clamp of the chunker would turn a size of at most 200 with an unusable overlap into an overlap that
  is not below the size, and segments that do not overlap (`Chunker.ClampedChunksCover`). Validation makes the clamp
  unreachable (`Chunker.ClampIsUnreachable`), so the exact law holds under every tuning that can be in force
  (`Chunker.TunedChunksAreExact`).

## Model

| member | source | states |
|---|---|---|
| SessionManager.SessionTable.Insert | internal/store/store.go:111-116 | primary key on the digest: a second insert, or a failing one, changes nothing |
| SessionManager.SessionTable.Touch | internal/store/store.go:134-138 | rewrites last_seen and expires_at of an existing row only, never max_until |
| SessionManager.SessionTable.PurgeVault | internal/store/store.go:146-152 | removes exactly the rows of one vault |
| SessionManager.SharedKey.FillIfEmpty | internal/auth/session.go:134-139 | the shared key is filled once, by the first data key |
| SessionManager.Manager.CreateSession | internal/auth/session.go:105-141 | row, cached session and shared key after a creation, and nothing when the insert fails |
| SessionManager.Manager.ExtendHeld | internal/auth/session.go:187-212 | check of both lifetimes and in-place extension of a held session with its write-through |
| SessionManager.Manager.Touch | internal/auth/session.go:144-212 | cache hit, refill from the row, or rejection, with the whole new state |
| SessionManager.Manager.Invalidate | internal/auth/session.go:214-222 | removes the token from the cache and the table, nothing else |
| SessionManager.Manager.InvalidateAll | internal/auth/session.go:224-230 | empties the cache and leaves the table |
| SessionModel.StepRefinesTable | internal/auth/session.go:105-230 | each operation keeps every cached session equal to its row and gives the verdict of the table alone |
| SessionModel.RunRefinesTable | internal/auth/session.go:105-230 | every sequential run gives exactly the verdicts and rows of a machine without a cache |
| SessionModel.InvalidateAllIsUnobservable | internal/auth/session.go:224-230 | clearing the cache anywhere changes no later verdict |
| SessionModel.InvalidateIsFinal | internal/auth/session.go:214-222 | sequentially, an invalidated token that is not minted again is rejected as unknown for ever |
| SessionLaws.AcceptedExactlyInTime | internal/auth/session.go:105-212 | after a creation a request is accepted exactly when it and all before it came within max of the creation and idle of the one before; too late is told once, unknown from then on |
| SessionInterleaving.SectionKeeps | internal/auth/session.go:144-222 | every critical section keeps stored lifetimes genuine: limits from the creation, last use from a creation or acceptance |
| SessionInterleaving.EveryAcceptanceIsJustified | internal/auth/session.go:144-212 | under any interleaving, store failure, cache clear and restart, with the lifetimes of each process, an accepted token was minted, is within the max of its creation and within the idle of the accepting process since its creation or an earlier acceptance |
| SessionInterleaving.NeverAgainIffGone | internal/auth/session.go:150-222 | no continuation accepts a minted token if and only if no thread is about to, and its cached objects and its row are dead for every request that has begun or may begin, write-throughs, restarts and other lifetimes included |
| SessionInterleaving.InvalidateRemoves | internal/auth/session.go:214-222 | an Invalidate on its own removes its token from cache and table and changes nothing else |
| SessionInterleaving.UndisturbedInvalidateIsFinal | internal/auth/session.go:214-222 | an Invalidate beside which no other request of the token runs is final, whatever other tokens' threads do between its sections |
| SessionInterleaving.QuietRevocationIsFinal | internal/auth/session.go:214-222 | in particular, once it is in neither cache nor table with no live holder, row reader or unfinished creation, it is never accepted again |
| SessionInterleaving.InvalidatedTokenCanBeAccepted | internal/auth/session.go:154-222 | a run from the start that contains a whole Invalidate and can go on to accept the token |
| SessionInterleaving.RefilledTokenCanBeAccepted | internal/auth/session.go:182-222 | a run in which the cache is refilled between the two deletes of Invalidate, and the token is accepted with nothing left in flight and no row |
| Daemon.EncryptionIsForEver | cmd/gvsvd/main.go:150-164 | once a vault exists no later run changes it or serves it under the other encryption setting |
| DaemonServer.BootAuthMode | cmd/gvsvd/main.go:174-224 | purge, unwrap or refusal, according to the stored auth mode |
| DaemonServer.Start | cmd/gvsvd/main.go:55-66 | a new process over the old disk, or a refusal, also when a store call fails |
| DaemonServer.Server.VaultInit | internal/api/handlers.go:98-157 | conflict, bad password, bad mode, a failing store, or the one vault row |
| DaemonServer.Server.VaultUnlock | internal/api/handlers.go:163-211 | the vault's key or none goes into a new session; wrong passwords mint nothing |
| DaemonServer.Server.VaultLock | internal/api/handlers.go:213-221 | invalidates the presented token |
| DaemonServer.Server.RequireVaultAuth | internal/api/handlers.go:629-660 | session first, then an action token on a plaintext vault; a failing lookup is a backend error |
| DaemonServer.Server.MintActionToken | internal/api/handlers.go:223-262 | refused on an encrypted vault that can be read, stored otherwise |
| CredentialLaws.VaultIsOfInit | internal/api/handlers.go:98-157 | the vault of any run is that of the one request that created it, its key wrapped under that request's password |
| CredentialLaws.InitAnswers | internal/api/handlers.go:98-157 | exactly when a request for a vault is answered 201, 400 or 409, and that only 201 changes anything |
| CredentialLaws.BootNeedsThePassword | cmd/gvsvd/main.go:174-224 | after any run the daemon starts exactly with the vault's encryption setting and, in auto_unlock mode with encryption, the password of the creation; only that mode has the key in memory and keeps the sessions |
| CredentialLaws.UnlockNeedsThePassword | internal/api/handlers.go:163-211 | after any run an encrypted vault is unlocked by exactly the password it was created with, and the session then holds the key made at the creation; any other password is answered 401 or 400 and changes nothing |
| CredentialLaws.PlaintextUnlocksFreely | internal/api/handlers.go:175-184 | a plaintext vault needs no password |
| CredentialLaws.SessionOpens | internal/api/handlers.go:629-660 | an accepted session opens the vault as a bearer and in the session header alike; a rejected one only through an action token of that name |
| CredentialLaws.UnlockedOpensInTime | internal/api/handlers.go:163-211 | a token from an unlock opens the vault with its key exactly within idle and max |
| CredentialLaws.BearerIsTrimmed | internal/api/handlers.go:629-635 | space around a bearer does not matter |
| CredentialLaws.SessionHeaderWins | internal/api/handlers.go:213-225 | where a session is needed the session header wins over a bearer |
| CredentialLaws.MintAnswers | internal/api/handlers.go:223-262 | with an accepted session 400 on an encrypted vault and 201 with the stored token on a plaintext one; without one nothing is stored |
| CredentialLaws.LockIsFinal | internal/api/handlers.go:213-221 | a lock removes the presented session and no other, and in any later run it opens nothing unless minted again |
| CredentialLaws.ActionTokenOpensUntilExpiry | internal/api/handlers.go:223-262 | an action token opens a plaintext vault exactly before its expiry, in any later run, and an encrypted vault never |
| Daemon.StepKeepsInv | internal/api/handlers.go:98-221 | boots and handlers keep one vault's rows, one key, and a cache equal to the table |
| Daemon.AuthorizedCarriesVaultKey | internal/api/handlers.go:629-660 | after any run, a granted request is for the one vault and holds its data key |
| Daemon.AuthorizeStepCarriesKey | internal/core/engine.go:149-151 | so the engine's refusal to work without a key is unreachable |
| Daemon.SessionBootRevokesTokens | cmd/gvsvd/main.go:187-192 | in session mode a token minted before a boot and not after opens no session in any later run; as a bearer it works exactly when it is a live action token of a plaintext vault |
| Daemon.ActionTokenOutlivesSessionBoot | cmd/gvsvd/main.go:187-192 | a run in which the session dies with the restart and the action token does not |
| Daemon.AutoUnlockBootIsUnobservable | cmd/gvsvd/main.go:193-218 | in auto_unlock mode a successful boot changes no later response, keys included |
| Scoring.NormalizeLexical | internal/core/scoring.go:10-16 | a normalised rank is in [0,1) |
| Scoring.NormalizeIsMonotone | internal/core/scoring.go:10-16 | and grows with the raw rank |
| Scoring.ExchangeSort | internal/core/scoring.go:66-74 | the nested exchange loops rank the array in place and permute it |
| Scoring.CollectDense | internal/core/scoring.go:33-61 | gate, clamp, fusion and duplicate handling through the three maps |
| Scoring.RankChunksFusionDetail | internal/core/scoring.go:32-76 | the result is the ranking: exactly the gated dense ids, each with its fused row, strictly ordered |
| Scoring.RankChunks | internal/core/scoring.go:79-86 | the same ranking, projected |
| Scoring.RankingIsUnique | internal/core/scoring.go:32-76 | there is only one ranking of given candidates |
| Scoring.RankingIgnoresCandidateOrder | internal/core/scoring.go:32-76 | it does not depend on the order of either candidate list |
| ScoringLaws.NormalizeCounts | internal/core/scoring.go:10-16 | nothing for a rank that is not positive, and else n : (1 - n) = raw : 1 |
| ScoringLaws.NormalizeIsStrict | internal/core/scoring.go:10-16 | a larger positive raw rank counts for strictly more |
| ScoringLaws.RowsAreOfHits | internal/core/scoring.go:32-65 | every row comes from a gated dense hit and its lexical hit, with the weighted score, and every gated dense hit has its row |
| ScoringLaws.HigherScoreComesFirst | internal/core/scoring.go:66-74 | higher score first, smaller id between equal scores |
| ScoringLaws.LargerRawRankComesFirst | internal/core/scoring.go:32-76 | between equal semantic scores the larger positive raw rank comes first, also before chunks without a lexical hit |
| ScoringLaws.LargerSemanticComesFirst | internal/core/scoring.go:32-76 | between equal lexical scores the larger semantic score comes first |
| Scoring.FusedIsBetween | internal/core/scoring.go:53-54 | a fused score lies between the semantic score and the normalised lexical score |
| Scoring.RankingScoresNonNegative | internal/core/scoring.go:49-61 | with a non-negative threshold no fused score is negative |
| Scoring.RaisingNeverDemotes | internal/core/scoring.go:32-76 | raising one chunk's raw lexical rank never moves it later |
| Retrieval.BoostSessionPreference | internal/core/engine.go:34-57 | scores of preferred chunks multiplied in place, then re-ranked |
| Retrieval.BoostIsOrderRespecting | internal/core/engine.go:34-57 | order among preferred, among other chunks, and of preferred before other chunks is kept |
| Retrieval.RequestBoostIsOrderRespecting | internal/core/engine.go:195-215 | the same for a whole request under any valid tunings, one for the fusion and a later one for the boost |
| RetrievalLaws.ScoresAreBoosted | internal/core/engine.go:34-57 | each ranked chunk has its fused score, times the configured boost exactly if a complete lookup found the preferred session's key on it |
| RetrievalLaws.EveryRowIsRanked | internal/core/engine.go:34-57 | no fusion row is lost |
| Packing.PackLoop | internal/core/engine.go:269-306 | the loop computes the recursive greedy packing |
| Packing.PackRespectsLimits | internal/core/engine.go:272-301 | at most max_chunks items and, with a budget, at most max_tokens estimated tokens |
| Packing.SkippedWouldNotFit | internal/core/engine.go:291-300 | no chunk skipped for the budget would fit beside the final result |
| Packing.PackReasons | internal/core/engine.go:269-306 | each chunk is included, skipped or dropped for the reason its list says |
| Packing.OneMoreChunkExtends | internal/core/engine.go:272-280 | the result for k chunks is a prefix of the result for k+1 |
| Packing.LargerBudgetExtendsIff | internal/core/engine.go:291-300 | a larger token budget only extends the result if and only if, after the first chunk it gains, nothing that loads fits what the smaller budget had left there |
| Packing.LargerBudgetMayReplace | internal/core/engine.go:291-300 | a request for which it replaces the result instead |
| Packing.PackConserves | internal/core/engine.go:269-306 | the ranked chunks split, in order and without loss, into the four outcomes |
| ChunkFormat.SnippetFitsEstimate | internal/core/engine.go:370-415 | the shown text has at most 4 runes for each estimated token and 3 more, in every content mode |
| Retrieval.RetrieveWithDebug | internal/core/engine.go:148-311 | results are a function of the final ranking; the flag only adds the report: parameters, candidate rows, each ranked chunk with its fusion row, score and flag, and the packing |
| Retrieval.FlagsAgreeIff | internal/core/engine.go:207-262 | the reported boost flags agree with the scores if and only if the lookup was complete or no falsely flagged score would change |
| Retrieval.BrokenLookupMisreports | internal/store/store.go:360-380 | a request whose lookup breaks after one row, reported as boosted and not boosted |
| Retrieval.FinalRankingIsUnique | internal/core/engine.go:195-215 | the request determines the packed ranking, so asking for the report changes no result |
| Retrieval.ReturnedTextIsBounded | internal/core/engine.go:289-302 | with a budget the text returned is at most 4·max_tokens + 3·results runes |
| RetrievalLaws.AskedNumberIsReturned | internal/core/engine.go:148-180 | without a budget, and when all chunks load, as many results from the top as the request or else the tuning asks for |
| RetrievalLaws.SearchesAreDeep | internal/core/engine.go:156-180 | each search is asked for the larger of the minimum and the multiple of the result count |
| RetrievalLaws.ReportIsTruthful | internal/core/engine.go:216-262 | a candidate is reported as passed exactly if it has a row, and modes are reported normalised with their defaults |
| RetrievalLaws.SnippetShowsWhatWasAsked | internal/core/engine.go:370-415 | which text each content mode shows in which field |
| RetrievalLaws.EstimateIsOfShownText | internal/core/chunkbody.go:146-171 | a token is charged for at most four shown runes, one more allowed for each field |
| ChunkFormat.FormatThenParse | internal/core/chunkbody.go:34-84 | a v2 chunk parses back to every field |
| ChunkFormat.V1ParsesAsItselfIff | internal/core/chunkbody.go:34-66 | a bare text parses as itself exactly when it is not the text of a v2 envelope |
| ChunkFormat.ExcerptRunes | internal/core/chunkbody.go:11-21 | a prefix of at most max runes |
| ChunkFormat.EstTok | internal/core/chunkbody.go:161-171 | the token estimate covers the runes and is zero only for the empty text |
| JsonInstance.LawfulCodecExists | internal/core/chunkbody.go:69-84 | the laws asked of the JSON library can be met |
| Store.Pool.InsertChunk | internal/store/store.go:176-224 | three statements or none |
| Store.Pool.ChunkExistsHash | internal/store/store.go:542-547 | whether the key is live |
| Store.Pool.SoftDeleteChunk | internal/store/store.go:609-621 | marks a live chunk of the vault and then tries to drop its embedding |
| Store.Pool.GetSourceDocumentIDByHash | internal/store/store.go:494-505 | looks the document up in the unique index |
| Store.Pool.InsertSourceDocument | internal/store/store.go:508-513 | refused by the unique index when the content is there; a failing statement changes nothing |
| Store.Pool.GetChunkForVault | internal/store/store.go:421-465 | a live chunk of that vault, or not found |
| Store.Pool.StatsForVault | internal/store/store.go:645-677 | the total is the number of live chunks and the sum of the counts over the users, each of which is that user's share |
| Store.LiveAndDeletedMatchHistory | internal/store/store.go:217-221 | live plus soft-deleted chunks of a vault equal its history rows |
| Ingest.CollectExplicitStructuredWork | internal/core/ingest_work.go:53-90 | items, or one top-level item, or none |
| Ingest.WorkOfItemsIsTidy | internal/core/ingest_work.go:56-70 | collected fields are trimmed and not yet linked |
| Engine.CollectInferred | internal/core/engine.go:614-627 | one item for each fact that is not blank, in the chosen field |
| Engine.UpsertSourceDocument | internal/core/ingest_work.go:130-168 | one document for each content; too large, a failing lookup and a failing insert are errors that change nothing |
| Engine.AttachSharedSource | internal/core/ingest_work.go:95-128 | links exactly the items without a body, and stores no document when there are none |
| Engine.StoreDraft | internal/core/ingest_work.go:249-294 | size check, embedding, insert; all or nothing |
| Engine.IngestStructuredWork | internal/core/ingest_work.go:170-209 | the loop is the dedup-and-insert specification over the non-blank items |
| Engine.IngestTexts | internal/core/engine.go:651-671 | the same for legacy segments |
| Engine.IngestRequest | internal/core/engine.go:567-678 | which path a request takes, and the prune after a success only |
| Engine.GetChunk | internal/core/engine.go:329-358 | refused without a key on an encrypted deployment; otherwise the completed parse of the row |
| IngestContents.AttachLinksExactly | internal/core/ingest_work.go:95-128 | with a source text an item is linked, to its one document, if and only if it has no body, and every other item is unchanged |
| IngestContents.SentItemsReadBack | internal/core/engine.go:329-358 | each id of a structured request is of a sent item and reads back with that item's trimmed fields and own text, or the source text when it has none, exactly when it is not ambiguous |
| IngestContents.EverySentItemIsLive | internal/core/ingest_work.go:53-90 | after a success the key of every sent item with an abstract or a text is live |
| IngestContents.StructuredIff | internal/core/ingest_work.go:53-90 | which requests are structured |
| IngestContents.ItemIsIndexed | internal/core/ingest_work.go:211-247 | full-text search covers abstract and text, a source by its first 2000 runes; the embedding is of the abstract or else the text, never of nothing |
| IngestContents.AttachFailsIff | internal/core/ingest_work.go:130-168 | exactly when attaching the source document fails |
| IngestContents.NewDocumentIsStored | internal/core/ingest_work.go:140-167 | a new document has the trimmed title, if any, and opens to its text |
| IngestContents.RequestSucceeds | internal/core/engine.go:567-678 | when no call fails and no limit applies every request succeeds |
| IngestContents.StoredWasStorable | internal/core/ingest_work.go:249-294 | what is inserted fits the size limit, was embedded, checked and inserted without a failure |
| IngestContents.IdsAreTheNewChunks | internal/core/ingest_work.go:170-209 | a request returns the ids of exactly the chunks it stored, also when it stops half-way; a failing infer request returns none |
| IngestContents.LockedStoresNothing | internal/core/engine.go:571-574 | without its key an encrypted deployment stores nothing |
| IngestContents.RunsAreSealed | internal/core/ingest_work.go:149-160 | with encryption every payload any run stores, documents included, is sealed with the vault's key |
| IngestContents.OnlyItsKeyReads | internal/core/engine.go:329-338 | a sealed chunk is read with its own key only |
| IngestContents.ColumnsCompleteTheText | internal/core/engine.go:455-494 | the columns complete the kind, win in the metadata, and the source document fills an empty body |
| IngestContents.InferredItemHasFact | internal/core/engine.go:614-627 | the items of an inferred request are those of its facts |
| IngestContents.FactHasInferredItem | internal/core/engine.go:614-627 | and every fact that is not blank has its item |
| IngestContents.SegmentsReadBack | internal/core/ingest_work.go:296-350 | each id of a legacy request holds the trimmed text of a segment and reads back as it exactly when that is no envelope text |
| IngestContents.SameKeyIff | internal/core/ingest_work.go:25-37 | without newlines in kinds and abstracts, equal keys mean equal normalised kind, abstract, and body or document |
| IngestContents.KeysMayCollide | internal/core/ingest_work.go:25-37 | two different items with the same key |
| IngestContents.ReadNeedsLiveChunk | internal/core/engine.go:329-358 | a read succeeds only for a chunk of the asked vault that is not deleted |
| IngestContents.DeletedIsGone | internal/store/store.go:609-621 | after an accepted delete and any later run no vault reads the chunk and no delete finds it; the delete touches nothing else |
| IngestContents.RefusedDeleteChangesNothing | internal/store/store.go:609-616 | a delete for another vault, an unknown or a deleted chunk changes nothing |
| IngestContents.DeletedKeyIsFree | internal/store/store.go:542-547 | the content of a deleted chunk can be stored again |
| IngestLaws.AttachGives | internal/core/ingest_work.go:95-168 | every link is to a document of the same vault and user that opens to the source text |
| IngestLaws.KeysOfWork | internal/core/ingest_work.go:25-37 | the keys that count are the content keys of the non-blank items |
| Drafts.CountsNewKeys | internal/core/ingest_work.go:177-202 | one id for each distinct key that was not live; every key is live afterwards |
| IngestLaws.RequestCountsNewKeys | internal/core/ingest_work.go:170-209 | a successful request returns one id for each distinct content key of its own non-blank items, or text segments, that was not live |
| Drafts.RepeatStoresNothing | internal/core/ingest_work.go:183-193 | the insert loop is silent when its keys are live |
| IngestLaws.RequestIsIdempotent | internal/core/engine.go:567-678 | repeating a successful request, after any other requests but no deletion, stores no chunk, no document and no history |
| Drafts.ReturnsStoredRows | internal/core/ingest_work.go:194-201 | every returned id is a fresh row of the request, and earlier rows are untouched |
| IngestLaws.StoredItemReadsBack | internal/core/engine.go:455-494 | an item reads back with its fields and its body or source text, and its schema version agrees with the parse, exactly when it is not an unstructured envelope text |
| IngestLaws.RequestReadsBack | internal/core/ingest_work.go:211-294 | every id of every structured request holds one of its items, which reads back exactly when it is not ambiguous |
| IngestLaws.ReadSurvives | internal/core/engine.go:329-358 | a chunk that is not deleted reads the same after any later requests and deletions |
| IngestLaws.RequestReadsBackLater | internal/core/ingest_work.go:211-294 | so the ids of a structured request read back after any later run that does not delete them |
| IngestLaws.InferredReadsBack | internal/core/engine.go:585-636 | and for every id of an inferred one |
| IngestLaws.TextSegmentReadsBack | internal/core/ingest_work.go:296-350 | and for a legacy segment |
| IngestLaws.PastedEnvelopeMisreads | internal/core/chunkbody.go:49-65 | for any codec, ingesting the excluded body into empty tables succeeds and reads back as its inner body |
| IngestLaws.RequestKeepsInv | internal/core/engine.go:567-678 | a request keeps the table invariant, also when it stops half-way |
| IngestLaws.EveryRunKeepsTheTables | internal/store/store.go:176-224 | over any run of requests and deletions: unique live keys, embeddings with their model, good links, matching history |
| Store.DeleteKeepsInv | internal/store/store.go:609-621 | a soft delete keeps the invariant whether or not the embedding goes |
| Messages.MessageLog.SelectNewest | internal/store/store.go:556-569 | the newest rows of a session, up to the limit |
| Messages.ReverseInPlace | internal/store/store.go:570-573 | the in-place swap loop reverses |
| Messages.MessageLog.Recent | internal/store/store.go:555-575 | the last messages of a session in chronological order |
| Messages.PrunedMine | internal/store/store.go:577-587 | a prune keeps exactly the newest messages of its session and all of the others |
| Messages.RecentRefinesLog | internal/core/engine.go:588-598 | if every prune keeps at least n, the n recent messages are the last n ever appended |
| Messages.PruneBounds | internal/core/ingest_work.go:203-207 | a successful prune leaves at most keep messages |
| Messages.PruneIsInvisibleIff | internal/store/store.go:577-587 | when one prune hides nothing from a reader |
| Messages.RecentIsLastIff | internal/store/store.go:549-587 | after any run, exactly when the n recent messages are the last n ever appended |
| Messages.ValidTuningMayHide | internal/config/tuning.go:399-417 | tuning that validation accepts, and a run after which a reader misses a message |
| Chunker.ChunkText | internal/core/engine.go:680-704 | the loop yields the specified segments |
| Chunker.ChunksAreExactForOverlap | internal/core/engine.go:680-704 | ceil((n - overlap)/(size - overlap)) segments, all full but the last, which is longer than the overlap; without overlaps they rebuild the text |
| Chunker.ClampIsUnreachable | internal/core/engine.go:639-646 | valid tuning passes the clamp unchanged |
| Chunker.TunedChunksAreExact | internal/core/engine.go:680-704 | so the exact law holds of every text under every valid tuning |
| Chunker.ClampedChunksCover | internal/core/engine.go:639-646 | under the clamp every configuration covers every rune, and when the clamp itself leaves no overlap |
| Tuning.SetField | internal/config/tuning.go:181-238 | each case of the switch decodes its key into its own field |
| Tuning.MergeFromJSONMap | internal/config/tuning.go:175-242 | the result is the overlay, or a rejection, whatever the order in which the map is visited |
| Tuning.ApplyPartialByKey | internal/config/tuning.go:93-143 | set fields replace, the rest stay |
| Tuning.OverlayByKey | internal/config/tuning.go:175-242 | each key has its overriding value or the base value |
| Tuning.MergeOverrideJSON | internal/config/tuning.go:257-272 | the patch laid over the stored object, or a rejection |
| Tuning.MergeFullIsOverlay | internal/config/tuning.go:305-318 | effective tuning is valid, is the overlay of its file layer, and keeps the file's embedding model |
| Tuning.DecodesIffFits | internal/config/tuning.go:175-242 | a value is taken exactly when it fits its key, as itself |
| Tuning.FieldLimits | internal/config/tuning.go:399-446 | what validation allows of each field, limits included |
| Tuning.CloseIff | internal/config/tuning.go:320-376 | numbers are compared with a tolerance of 1e-9, everything else exactly |
| Tuning.EffectiveByLayer | internal/config/tuning.go:305-318 | each key has the stored override, else the file's value, else the default |
| Tuning.LoadsIff | internal/config/tuning.go:305-318 | exactly when a configuration loads |
| Tuning.ComputeSources | internal/config/tuning.go:378-396 | one label for each of the fifteen keys |
| Tuning.DbLabelMeansOverride | internal/config/tuning.go:320-396 | a key is labelled as from the database exactly when it is overridden by a value not close to the file's; the embedding model never |
| Tuning.FileLabelMeansFile | internal/config/tuning.go:320-396 | any other key is labelled as from the file exactly when the file sets it to a value not close to the default |
| Tuning.PatchSequenceLaw | internal/api/tuning_handlers.go:63-84 | after any sequence of accepted patches each key has the value of the last patch naming it, or the file's |
| TuningState.State.Reload | internal/config/tuning_state.go:44-63 | publishes one merge as a whole, or changes nothing |
| TuningState.State.APISnapshot | internal/config/tuning_state.go:66-75 | a consistent triple and its labels |
| TuningState.State.PatchTuning | internal/api/tuning_handlers.go:47-93 | codes, stored document and published state of a PATCH |
| TuningState.ReloadAlonePublishes | internal/config/tuning_state.go:44-63 | a reload on its own publishes the merge of file and document, or nothing |
| TuningState.PatchAlonePublishes | internal/api/tuning_handlers.go:63-84 | an accepted patch on its own is stored and published |
| TuningState.PublishedIsAlwaysConsistent | internal/config/tuning_state.go:44-75 | under any interleaving what is published is valid and the merge of the published layers; with the file untouched, what is stored can be loaded |
| TuningState.OverlappingPatchesLoseTheFirst | internal/api/tuning_handlers.go:63-84 | two patches that read the same document are both stored, every key only the first names has its old binding again, and the document is not their sequential result |
| TuningState.StoreAddsItsPatchIff | internal/api/tuning_handlers.go:63-84 | a store adds its patch to the document as it is if and only if the document is unchanged outside the patch since it was read |
| TuningState.RunFollowsIff | internal/api/tuning_handlers.go:63-84 | over any run the document follows the stored patches, in store order, if and only if every store is of that kind |
| TuningState.PromptPatchesAreSequential | internal/api/tuning_handlers.go:63-84 | when no store falls between a patch's read and its own store, the final document is the sequential result of the stored patches |
| TuningState.TwoFlagsOverlap | internal/api/tuning_handlers.go:63-84 | a concrete pair over the defaults, of which the first flag is lost |
| TextLaws.TrimTakesOnlySpace | internal/core/ingest_work.go:56-70 | trimming takes white space off both ends and nothing else |
| TextLaws.LowerIsOfCapitals | internal/core/ingest_work.go:25-37 | lowering maps capital letters to small ones and leaves the rest |
| Text.NormalIsIdempotent | internal/core/engine.go:217-220 | trimming and lowering a mode twice is the same as once |

## Left out

- Database search, embedding vectors, HNSW and `ts_rank_cd`: the two candidate lists are arbitrary input; `k_dense` is reported but does not bound them.
- HTTP routing, problem bodies, request decoding and logging; the handlers' results are their status codes.
- The extraction by a language model: its facts are arbitrary input.
- Argon2id, XChaCha20-Poly1305, nonces and key ids; SHA-256 is injective by construction.
- The JSON and YAML grammars: lawful codecs for chunk envelopes, decoded values for tuning documents.
- Floating-point rounding and NaN, timestamp precision and equal `created_at` values in `session_messages`.
- SessionInterleaving.NeverAgainIffGone: time passes only when a request begins, and all processes share one clock.
- `NewManager` and a manager without a store, which only test code builds, and random-source failures.
- SessionManager.Manager.Touch: failing reads and write-throughs are left to the interleaved machine, where every store call may fail, because with them the cache is observable.
- Daemon.StepKeepsInv: events are handlers run one after the other, and the store calls inside Touch and Invalidate work; overlap and those failures are left to the interleaved session machine.
- An ingest request that a reload overtakes: the engine reads the tuning several times, and a request here has one size limit, embedding model and chunk size throughout (the two readings of a retrieve are modelled).
- Non-transactional effects after a crash between two statements, other than those of `SoftDeleteChunk`.
- Concurrent ingests: there is no unique index on live content keys, so key uniqueness is a law of sequential requests.
- Store.Pool.StatsForVault: does not return the event and message counters and the recent-activity list.
- Engine.IngestRequest: does not return the ingest debug report.
- Engine.GetChunk: does not return the creation time, and its own reads do not fail; a chunk or document that cannot be read is one that is not there.
- Text.NormalIsIdempotent: covers ASCII letters, because lower-casing is that of ASCII here.
- `api_keys` mode, which boot and init refuse; the MCP bridge, OAuth facade, command-line tools and dashboard.
- SessionInterleaving.EveryAcceptanceIsJustified: covers lifetimes only; vault id, data key and expires_at are left to the sequential machine, because the interleaved sections never decide on them.
- TuningState.PublishedIsAlwaysConsistent: does not claim that the published document is the stored one, because overlapping reloads can publish an older document last.
