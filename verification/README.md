# Verification of the knowledge, integration, session and prompt services

This project models the stateful services of the backend and the pure code beneath them, and proves what
they keep over every run.

- **Knowledge index** (`Knowledge*.dfy`). `KnowledgeService` is a state machine over knowledge bases,
  documents, versions, chunks, embeddings, a first-in-first-out job queue and a search cache with expiry per
  organization. A run starts from the empty database and interleaves uploads (inline or queued), deletions,
  reindexing, ingestion, background jobs and searches in any order. `KnowledgeModel` says what each call
  does to the state, `KnowledgeServices` holds the class whose methods update the tables in place with the
  source's loops, `KnowledgeExamples` gives the runs in which a property fails, and the other files prove the
  run theorems: `KnowledgeIndexing` and `KnowledgeIdentity` say what the indexing calls achieve and which uploads
  are one document, `KnowledgeScores` what a search ranks by, and `KnowledgeLaws` what creating and deleting leave
  and how long the cache answers.
- **Chunker** (`Text.dfy`, `Chunking.dfy`, `ChunkingLaws.dfy`). Python's whitespace, `strip`, `split`, `join` and the newline
  substitution, and the two nested loops of the recursive chunker.
- **Scoring and ranking** (`Similarity.dfy`, `Ranking.dfy`). Cosine and Jaccard similarity, the hybrid mix,
  the deterministic embedding, and the sort and slice.
- **Integrations** (`Integration*.dfy`). The connection lifecycle, the credential record, the refresh pass
  and the set-if-absent refresh lock.
- **Tokens** (`Token*.dfy`). Refresh sessions, one-time tokens and the access-token blacklist as keys with
  expiry, and the authentication calls that drive them.
- **Prompts** (`Prompts.dfy`, `PromptEntries.dfy`). Placeholder replacement one key after another against one simultaneous
  substitution.

`Common.dfy` holds the option type and the row id.

How the source is represented: every public service call is one atomic step; ids are numbers that have not
been handed out before; a hash is the value that is hashed; a timestamp that is only compared with null is a
flag; time is an argument (integers for the knowledge and integration services, reals where the token
service rounds them down); numbers are exact reals, and a square root is a nonnegative value whose square is
the sum of squares. The parser, the embedding function, the root, lower-casing and the settings are parameters.
An expiring key is alive strictly before its expiry, as RFC 7519, section 4.1.4 has it for tokens.
`Inv`, `Filed`, `OnePerChain` and `Valid` name the invariants that the run theorems establish for every
reachable state.

What the proofs show that the code does not say:

- For a chunk_size of at least 1 and a nonnegative overlap the chunks hold every word. The settings rule out
  neither smaller sizes nor negative overlaps: a size below 1 loses words of every text that has any, and a
  negative overlap loses words exactly when some windowed paragraph does not fit in one window.
- The paragraph at which the buffer overflows is always cut into windows, however short it is, and closing
  an empty buffer still consumes a chunk index; indices rise all the same, with gaps.
- Superseded versions that were not deleted stay searchable: a row is visible exactly when its version is
  not deleted.
- `delete_document` leaves the cache alone: a cached answer stays right exactly when it shows no chunk of the
  deleted document.
- A queued job for a version that a later upload has replaced leaves two versions flagged current, until the
  next stored upload or the deletion of the document. A document deleted before its newest job runs keeps the
  older version current.
- The checksum feeds its parts to the hash without separators, so two uploads of different texts with
  different file names to one URI can have the same checksum, and the second is then dropped. It tells the
  texts of two uploads apart exactly when neither type, URI and file name run together end in the other's.
- A verification token activates its user whatever the status is by then, a suspended user included.
- A failed refresh leaves its token due for the same cutoffs, a bad verdict takes it off every due list until a good
  verdict or a new authentication.
- A consumed one-time token is spent even when its user is gone; a refresh by an inactive user leaves the
  session alive.
- The prompt loop equals one simultaneous substitution for every dictionary without braces exactly when no pair
  of braces in the template encloses a complete placeholder. In such templates a value is safe under every key
  exactly when it holds no brace: any other value is read again in some template and makes the order of the
  entries show. A key is safe exactly when it holds no brace or its placeholder can occur in no such template.

## Model

| member | source | states |
|---|---|---|
| Text.ParagraphsKeepWords | backend/services/knowledge/chunking.py:30-34 | Stripping, collapsing newlines and splitting into paragraphs keeps the word sequence of every text |
| Text.WordsOfCollapse | backend/services/knowledge/chunking.py:30 | Replacing runs of three or more newlines by two changes no word, whatever precedes the text |
| Text.WordsOfSplit | backend/services/knowledge/chunking.py:34 | Splitting at blank lines keeps the words in order |
| Text.WordsOfJoin | backend/services/knowledge/chunking.py:73-74 | Joining words with single spaces and splitting again gives the words back |
| Text.JoinedParagraphs | backend/services/knowledge/chunking.py:59 | A join of paragraphs is already stripped and has the words of its paragraphs in order |
| Text.ParagraphsOfJoin | backend/services/knowledge/chunking.py:30-34 | Stripped paragraphs without blank lines, joined by blank lines, are exactly the paragraphs of the result |
| Text.ParagraphsAreFinal | backend/services/knowledge/chunking.py:30-34 | No paragraph of a text has a blank line inside, and splitting the join of the paragraphs again gives the same paragraphs |
| Chunking.ChunkText | backend/services/knowledge/chunking.py:29-96 | The buffer and window loops compute the greedy packing of the paragraphs for every size and overlap, also senseless ones |
| Chunking.CutWindows | backend/services/knowledge/chunking.py:69-89 | The window loop appends the windows of one paragraph in order and returns the next free index |
| Chunking.Extent | backend/services/knowledge/chunking.py:58-64 | The buffered run is the longest one: it fits in chunk_size characters and one more paragraph would not |
| Chunking.ChunksTileTheText | backend/services/knowledge/chunking.py:39-96 | The chunks partition the paragraphs in order without a gap: each buffered chunk is the blank-line join of a paragraph range from paragraph_start of at most chunk_size characters, each window one stretch of at most chunk_size words; token_count is the number of its words and page_number is paragraph_start plus one |
| ChunkingLaws.PackLinked | backend/services/knowledge/chunking.py:57-96 | A buffered chunk takes the next index and never follows another; the paragraph at which the buffer overflows is cut into windows however short it is, and any other windowed paragraph does not fit and leaves one index out; later windows take the next index, max(size - overlap, 1) words further on |
| ChunkingLaws.ChunksAreTheOnlyTiling | backend/services/knowledge/chunking.py:29-96 | For every size from one up and every overlap a list of chunks is the output if and only if it tiles the paragraphs and its chunks follow one another like that |
| ChunkingLaws.OverlapIsShared | backend/services/knowledge/chunking.py:69-89 | Two windows in a row share the overlap: the words of the first from size - overlap on begin the second |
| ChunkingLaws.PieceBelowOne | backend/services/knowledge/chunking.py:72-85 | Below size 1 a window at word o ends -size words before the end of its paragraph, and there is one only for o below -size in a paragraph of more than -size words |
| Chunking.WindowCount | backend/services/knowledge/chunking.py:69-89 | A windowed paragraph of n words yields exactly ceil(n / step) pieces |
| Chunking.IndicesAlwaysRise | backend/services/knowledge/chunking.py:57-94 | Chunk indices strictly increase for every size and overlap |
| Chunking.ChunkingIsLossless | backend/services/knowledge/chunking.py:29-96 | For chunk_size of at least 1 and a nonnegative overlap, dropping the overlaps gives exactly the words of the text |
| Chunking.LosslessExactlyWhen | backend/services/knowledge/chunking.py:29-96 | For every size and overlap the words survive if and only if the text has none, or the size is at least 1 and either the overlap is nonnegative or every windowed paragraph fits in its first window |
| Chunking.ZeroSizeLosesWords | backend/services/knowledge/chunking.py:60-73 | Size 0 loses a text of one word with no overlap at all |
| Chunking.NegativeOverlapLosesWords | backend/services/knowledge/chunking.py:69-89 | A three-word line cut with size 1 and overlap -1 loses a word |
| Similarity.CauchySchwarz | backend/services/knowledge/search.py:10-13 | The square of the dot product is at most the product of the sums of squares, for vectors of any length |
| Similarity.CosineBounds | backend/services/knowledge/search.py:7-13 | Cosine similarity of equally long vectors lies in [-1, 1], zero vectors included |
| Similarity.LexicalBounds | backend/services/knowledge/search.py:16-21 | Jaccard similarity lies in [0, 1], is symmetric, is 1 exactly on equal nonempty term sets and 0 exactly on disjoint ones |
| Similarity.HybridBounds | backend/services/knowledge_service.py:456 | The hybrid score lies in [-0.8, 1]; it is 1 exactly when both parts are, and -0.8 exactly at vector score -1 and lexical score 0 |
| Similarity.HybridTradeOff | backend/services/knowledge_service.py:456 | One pair of scores mixes to at least as much as another if and only if four times its lead in vector score is at least its lag in lexical score |
| Similarity.LexicalRatio | backend/services/knowledge/search.py:16-21 | Jaccard similarity times the number of all terms is the number of shared terms, so between 0 and 1 it is their quotient |
| Similarity.CosineTimesNorms | backend/services/knowledge/search.py:7-13 | Cosine similarity times the two norms is the dot product, and it is 0 for a zero vector |
| Similarity.CosineByDistance | backend/services/knowledge/search.py:7-13 | For unit vectors it is 1 less half the square of their distance |
| Similarity.ComponentAt | backend/services/knowledge/providers.py:38-48 | For digests of one length component q * length + r of the stream comes from byte r of the digest rehashed q times |
| Similarity.AppendBlock | backend/services/knowledge/providers.py:43-46 | The byte loop appends the components of one seed until enough are there |
| Similarity.EmbedComponents | backend/services/knowledge/providers.py:38-48 | The seed loop computes exactly the first components of the stream of rehashed digests |
| Similarity.Embed | backend/services/knowledge/providers.py:38-48 | The whole embedding: the named digest, its component stream and the normalization, giving the configured dimension and length 1 |
| Similarity.ComponentNotZero | backend/services/knowledge/providers.py:44 | No component of an embedding is zero, and each lies in [-1, 1] |
| Similarity.ComponentsPositive | backend/services/knowledge/providers.py:38-48 | So a vector of at least one component has a positive sum of squares |
| Similarity.NormalizedIsUnit | backend/services/knowledge/providers.py:10-12 | Normalizing a vector of positive norm gives a vector of length 1 |
| Similarity.EmbeddingIsUnit | backend/services/knowledge/providers.py:38-48 | An embedding has the configured dimension and length 1, or is empty when there are no dimensions |
| Similarity.SelfSimilarityIsOne | backend/services/knowledge/search.py:7-13 | An embedding scores exactly 1 against itself |
| Ranking.SortCorrect | backend/services/knowledge_service.py:458 | Sorting by score is a descending rearrangement of the scored rows |
| Ranking.TopOfSortIsTopK | backend/services/knowledge_service.py:458-459 | Sort and slice give min(k, rows) hits in nonincreasing score, and no omitted row beats a returned one |
| Ranking.TopKUniqueUpToTies | backend/services/knowledge_service.py:451-459 | Whatever order the rows come in, all correct rankings have the same scores position by position |
| Ranking.BetterThanLastIsKept | backend/services/knowledge_service.py:458-459 | A row that beats the last returned hit is in every correct ranking |
| KnowledgeInvariants.ReindexKeepsInv | backend/services/knowledge_service.py:331-363 | Indexing a version keeps the whole invariant: references, numbering, deletion flags, and an index that equals the chunker's output |
| KnowledgeInvariants.StoreKeepsInv | backend/services/knowledge_service.py:156-209 | Storing an upload keeps the invariant and leaves a version that may be indexed without a reset |
| KnowledgeInvariants.DeleteKeepsInv | backend/services/knowledge_service.py:236-254 | Deleting a document keeps the invariant; a deleted document has only deleted versions |
| KnowledgeInvariants.CreateKeepsInv | backend/services/knowledge_service.py:88-109 | Creating a knowledge base keeps the invariant |
| KnowledgeLaws.CreateAnswers | backend/services/knowledge_service.py:88-109 | A base is created if and only if the organization has none of that name; then it is the only change, and a second creation conflicts |
| KnowledgeLaws.DeleteAnswers | backend/services/knowledge_service.py:236-255 | A deletion answers with a missing document exactly when the organization has none such; otherwise the document, its versions, chunks and embeddings are marked and no other row, flag, job or cache entry changes |
| KnowledgeInvariants.StepKeepsInv | backend/services/knowledge_service.py:88-485 | Every service call keeps the invariant |
| KnowledgeInvariants.ReachableInv | backend/services/knowledge_service.py:88-485 | The invariant holds in every state of every run |
| KnowledgeIndex.ListingIsChunkerOutput | database/repositories/knowledge.py:97-99 | Listing an indexed version by chunk_index gives the chunker's output on its text, and chunk_count is its length |
| KnowledgeIndex.IndexRefinesText | backend/services/knowledge_service.py:331-417 | In every reachable state, however often a version was processed, its listing is the chunker's output, chunk_count counts it, and each chunk has exactly one embedding, that of its text |
| KnowledgeIndex.EveryVersionIsListed | database/repositories/knowledge.py:97-99 | Every version of a reachable state has a listing of its chunks in index order |
| KnowledgeIndexing.ReindexIndexes | backend/services/knowledge_service.py:257-267 | A reindex succeeds exactly for a document of the organization and answers with its current version, which is then fully indexed: chunk_count and every listing are the chunker's output on its text, each chunk with one embedding, all rows new, the rows of other versions untouched |
| KnowledgeIndexing.IngestIndexes | backend/services/knowledge_service.py:309-314 | Ingesting a live version indexes it fully in the same sense and makes it current; any other version is left alone |
| KnowledgeIndexing.JobIndexes | backend/services/knowledge_service.py:316-329 | A job takes the version at the end of the list off it and indexes it fully if it is live |
| KnowledgeIndexing.UploadIndexes | backend/services/knowledge_service.py:119-229 | An upload is refused exactly for a missing base or an empty text; a new version has the stripped text, is live, current and the newest, and is fully indexed when inline, and otherwise the newest job on the list with no chunk rows |
| KnowledgeIndexing.StepIndexes | backend/services/knowledge_service.py:88-485 | With Redis every call keeps each live version indexed or queued |
| KnowledgeIndexing.DrainedIsIndexed | backend/services/knowledge_service.py:316-329 | With Redis, after any run, once the queue is empty every live version is fully indexed |
| KnowledgeIndexing.RankedIff | backend/services/knowledge_service.py:429-449 | A chunk is ranked by a search of the organization if and only if its version is live and its document passes the filters |
| KnowledgeIndex.ChunkIndexUnique | database/models/knowledge.py:178-180 | The unique (version, chunk_index) constraint holds in every reachable state |
| KnowledgeIndex.VisibleIffVersionLive | backend/services/knowledge_service.py:429-449 | A row meets the five deletion conditions of the query exactly when its version is not deleted; the rest is the organization and the filters |
| KnowledgeIndex.ProviderIsOk | backend/services/knowledge/providers.py:38-48 | The vectors the provider computes from digests have the configured dimension and length 1, unless that dimension is zero |
| KnowledgeIndex.DimensionsAgree | backend/services/knowledge/search.py:8-9 | With the deterministic provider the dimension check never fails on a stored vector |
| KnowledgeIndex.RowScoreBounds | backend/services/knowledge_service.py:453-457 | With the deterministic provider every row scores within [-1, 1] (semantic) or [-0.8, 1] (hybrid), and a chunk whose text is the query scores exactly 1 |
| KnowledgeScores.ScoreByTexts | backend/services/knowledge_service.py:451-457 | In every state that keeps the invariant a stored row scores 1 less half the squared distance between the embeddings of the query and its text (semantic), or 0.8 of that and 0.2 of the share of lower-case words the two have in common (hybrid) |
| KnowledgeScores.OrderOfTwoRows | backend/services/knowledge_service.py:453-458 | Of two rows a semantic search ranks the nearer one at least as high and no other; a hybrid search ranks one at least as high if and only if twice its lead in squared distance is at least its lag in shared words |
| KnowledgeScores.ResultsFollowTheTexts | backend/services/knowledge_service.py:451-460 | Every result of a fresh search stands for a visible row that ranks by its text at least as high as every visible row not among the results before it |
| KnowledgeIndex.ExactMatchComesFirst | backend/services/knowledge_service.py:451-460 | With the deterministic provider a semantic search that sees a chunk with the query's text answers with a score of 1 first, and nothing scores higher |
| KnowledgeViews.StoreKeepsView | backend/services/knowledge_service.py:156-209 | Storing an upload changes no row that any search sees, although it may revive a document |
| KnowledgeViews.ReindexKeepsView | backend/services/knowledge_service.py:331-363 | Indexing a document changes no row that another organization's searches see |
| KnowledgeViews.DeleteKeepsView | backend/services/knowledge_service.py:236-254 | Deleting a document changes no row that another organization's searches see |
| KnowledgeViews.StepKeepsRows | backend/services/knowledge_service.py:88-485 | Only indexing or deleting in an organization changes the rows its searches rank |
| KnowledgeCache.CacheStep | backend/services/knowledge_service.py:692-718 | An entry after a step was there before and no indexing ran in its organization, or the step is the search that computed and wrote it |
| KnowledgeCache.CacheProvenance | backend/services/knowledge_service.py:692-718 | Every entry was written by an earlier search, and its organization indexed nothing since |
| KnowledgeCache.RowsUnchanged | backend/services/knowledge_service.py:419-485 | Without indexing or deletion in between, two states of a run give an organization the same rows |
| KnowledgeCache.CacheHitAgrees | backend/services/knowledge_service.py:419-485 | Every cache hit is a correct ranking of some moment after the organization's last indexing and younger than the TTL, and of now if nothing was deleted there since |
| KnowledgeCache.CacheHitEqualsFreshSearch | backend/services/knowledge_service.py:419-485 | A hit whose organization deleted nothing since the write has the scores of a fresh search, position by position |
| KnowledgeLaws.EntryIsKept | backend/services/knowledge_service.py:698-719 | A call keeps every cache entry that has not lapsed, unless it indexes a document of the entry's organization |
| KnowledgeLaws.CacheAnswersIff | backend/services/knowledge_service.py:692-719 | At any moment of any run the cache answers a key with these results if and only if a search less than the cache lifetime ago computed them and no document of the organization has been indexed since |
| KnowledgeCache.RowsAfterDelete | backend/services/knowledge_service.py:236-254 | Deleting a document removes exactly its hits from what a search ranks |
| KnowledgeCache.CachedAnswerAfterDelete | backend/services/knowledge_service.py:236-255 | The cached answer survives a deletion, and is still right if and only if it shows no chunk of the deleted document |
| KnowledgeCache.RowsSince | backend/services/knowledge_service.py:419-485 | Until the next indexing, what an organization's searches rank is what they ranked then without the documents deleted since |
| KnowledgeCache.CachedAnswerIsRightIff | backend/services/knowledge_service.py:236-255 | At any moment of a run a cached answer is a correct ranking of now if and only if it shows no chunk of a document deleted since the answer was written |
| KnowledgeExamples.StaleCachedAnswer | backend/services/knowledge_service.py:236-255 | A run of an inline upload, a search and a deletion after which the cache still answers with the deleted chunk |
| KnowledgeVersions.VersionPersistsThrough | backend/services/knowledge_service.py:88-485 | No step of a run removes, moves or renumbers a version or takes back its deletion |
| KnowledgeVersions.DeletedStaysDeleted | backend/services/knowledge_service.py:236-255 | After a deletion no search in any continuation ranks a chunk of a version that existed then |
| KnowledgeVersions.NumbersAreConsecutive | backend/services/knowledge_service.py:184-191 | In every reachable state a document's version numbers are 1..latest_version_number, each used once |
| KnowledgeVersions.StepKeepsOneCurrent | backend/services/knowledge_service.py:202-209 | Every step except ingesting a superseded version keeps one current version per document, the one current_version_id names, present while the document is live |
| KnowledgeVersions.OneCurrentThroughout | backend/services/knowledge_service.py:351-353 | So it holds throughout a run without such an ingestion |
| KnowledgeVersions.StoreRestoresCurrent | backend/services/knowledge_service.py:206-209 | A stored upload leaves exactly one current version of its document whatever the flags were before |
| KnowledgeVersions.UploadRestoresCurrent | backend/services/knowledge_service.py:119-229 | A whole upload of new content, inline or queued, leaves exactly one current version of its document from any state |
| KnowledgeVersions.IngestKeepsOneCurrentIff | backend/services/knowledge_service.py:309-314 | Ingesting a live version keeps one current version if and only if it already was the current one |
| KnowledgeExamples.TwoCurrentVersions | backend/services/knowledge_service.py:351-353 | A run of two queued uploads and one job that ends with two versions of one document flagged current |
| KnowledgeFlags.StepFlags | backend/services/knowledge_service.py:88-363 | A stored upload or a deletion leaves its document with one current version, ingesting a superseded version leaves two, and every other step leaves the question as it was |
| KnowledgeFlags.OneCurrentIff | backend/services/knowledge_service.py:202-363 | At any moment of any run a document has one current version if and only if no superseded version of it was ingested since its last stored upload or deletion |
| KnowledgeQueue.DrainTakesOldest | backend/services/knowledge_service.py:316-329 | A drain with room for n takes the n oldest jobs, or all, and leaves the rest in order |
| KnowledgeQueue.StepKeepsQueueInv | backend/services/knowledge_service.py:684-687 | While uploads are queued, each step keeps a document's jobs in version order and its newest version current or queued |
| KnowledgeQueue.NewestQueuedUploadWins | backend/services/knowledge_service.py:316-329 | When every upload was queued and the queue is empty, a live document's current version is its highest one |
| KnowledgeQueue.DeletedHeaderStep | backend/services/knowledge_service.py:236-329 | Only a deletion makes a document deleted, and while it is deleted no step changes its current version or its version count |
| KnowledgeQueue.NewestIsCurrentIff | backend/services/knowledge_service.py:316-329 | When every upload was queued and the queue is empty, any document's current version is its highest one if and only if the document is live or had its highest version current when it was deleted |
| KnowledgeExamples.DeletedBeforeNewestJob | backend/services/knowledge_service.py:309-329 | A run of two queued uploads, one job, a deletion and the other job: the queue is empty and the deleted document's current version is the older one |
| KnowledgeUploads.ShownContentIsUnchanged | backend/services/knowledge_service.py:149-154 | An upload of a live document's latest content changes nothing and answers with its current version |
| KnowledgeUploads.RepeatedUploadChangesNothing | backend/services/knowledge_service.py:145-154 | Doing an accepted upload that names its source a second time leaves the state as it is |
| KnowledgeUploads.ChecksumTellsTextsApart | backend/services/knowledge_service.py:649-654 | For one source type, URI and file name, checksums agree exactly when the texts do |
| KnowledgeUploads.ChecksumTellsTextsApartIff | backend/services/knowledge_service.py:649-654 | For any two uploads, equal checksums mean equal texts if and only if neither type, URI and file name run together end in the other's |
| KnowledgeUploads.ChecksumTellsCleanedTextsApartIff | backend/services/knowledge_service.py:141-146 | Among stripped, nonempty texts: if and only if neither ends in the other's behind a character that is not a space |
| KnowledgeUploads.SecondUploadIsDroppedIff | backend/services/knowledge_service.py:149-154 | After an accepted upload, another one of the same source leaves the state as it is if and only if the two checksums are equal, whatever the texts are |
| KnowledgeIdentity.KeysAgreeIff | backend/services/knowledge_service.py:645-647 | Two uploads get one document key if and only if their types agree and so does the first nonempty of URI, file name, title and text |
| KnowledgeIdentity.UploadAnswers | backend/services/knowledge_service.py:148-229 | An accepted upload answers with a version of the document that has its key, and no document changes its base or key |
| KnowledgeIdentity.SameDocumentIff | backend/services/knowledge_service.py:148-209 | After an accepted upload another accepted one to the same base answers with a version of the same document if and only if the types agree and the first nonempty of URI, file name, title and text has the same value in both |
| KnowledgeIdentity.NextVersionOfSource | backend/services/knowledge_service.py:149-205 | Of the same source and with another checksum than the document has, it is stored as the next version of that document |
| KnowledgeExamples.ChecksumCollision | backend/services/knowledge_service.py:145-154 | Two pasted texts for one URI with different file names: the second has another text and the same checksum, and its upload changes nothing and answers with the first one's version |
| KnowledgeServices.KnowledgeService.CreateKnowledgeBase | backend/services/knowledge_service.py:88-109 | Creates or revives the named base, or reports a conflict, and keeps the invariant |
| KnowledgeServices.KnowledgeService.UploadDocument | backend/services/knowledge_service.py:119-229 | The whole new state and reply of an upload: refusals, the unchanged case, and the stored version indexed or queued |
| KnowledgeServices.KnowledgeService.StoreRows | backend/services/knowledge_service.py:156-209 | The document row is created or updated in place and the new version becomes the only current one |
| KnowledgeServices.KnowledgeService.ClearCurrentFlags | backend/services/knowledge_service.py:206-207 | The loop clears the flag of every version of the document and touches no other |
| KnowledgeServices.KnowledgeService.ProcessVersion | backend/services/knowledge_service.py:331-363 | Rows are replaced, the version and document updated and the organization's cache emptied |
| KnowledgeServices.KnowledgeService.ReplaceRows | backend/services/knowledge_service.py:339-349 | After an optional reset the tables are the kept rows and one row and one embedding for each chunk |
| KnowledgeServices.KnowledgeService.CreateChunks | backend/services/knowledge_service.py:365-388 | The loop adds one chunk row for each chunk, in order, with fresh ids |
| KnowledgeServices.KnowledgeService.EmbedChunks | backend/services/knowledge_service.py:390-417 | The loop adds one embedding of the text for each created chunk |
| KnowledgeServices.KnowledgeService.UpsertEmbedding | database/repositories/knowledge.py:113-128 | Updates the embedding of the chunk if there is one and adds a row otherwise |
| KnowledgeServices.KnowledgeService.DeleteRowsOfVersion | database/repositories/knowledge.py:105-143 | Deletes exactly the embeddings and chunks of the version |
| KnowledgeServices.KnowledgeService.CacheInvalidate | backend/services/knowledge_service.py:709-719 | The key loop removes exactly the organization's entries |
| KnowledgeServices.KnowledgeService.DeleteDocument | backend/services/knowledge_service.py:236-255 | Marks the document, its versions, chunks and embeddings, and leaves queue and cache alone |
| KnowledgeServices.KnowledgeService.MarkVersionsDeleted | backend/services/knowledge_service.py:240-242 | The loop marks every version of the document deleted and not current |
| KnowledgeServices.KnowledgeService.MarkRowsDeleted | backend/services/knowledge_service.py:243-246 | The loop marks every chunk of the document and its embedding |
| KnowledgeServices.KnowledgeService.ReindexDocument | backend/services/knowledge_service.py:257-267 | Reprocesses the current version with a reset, or reports what is missing |
| KnowledgeServices.KnowledgeService.IngestPendingVersion | backend/services/knowledge_service.py:309-314 | Processes a version that exists and is not deleted, and nothing otherwise |
| KnowledgeServices.KnowledgeService.ProcessBackgroundJobs | backend/services/knowledge_service.py:316-329 | Runs the oldest jobs up to the limit; processed plus remaining is the initial queue length |
| KnowledgeServices.KnowledgeService.ScoreRows | backend/services/knowledge_service.py:451-457 | The loop scores every visible row once, in whatever order the rows come, and the dimension check raises no error |
| KnowledgeServices.KnowledgeService.Search | backend/services/knowledge_service.py:419-485 | Answers from a living cache entry, else with a correct top-k of the visible rows; with Redis the answer is in the cache right afterwards |
| IntegrationProofs.StepKeepsInv | backend/services/integration_service.py:97-325 | Every call and every refresh attempt keeps status, error and credentials in step, and one row per organization and provider |
| IntegrationProofs.ReachableInv | backend/services/integration_service.py:97-325 | That holds in every state of every run |
| IntegrationProofs.CredentialsMatchStatus | backend/services/integration_service.py:87-94 | An integration has a live token exactly when connected, expired or validation_failed, has an error exactly in the last two, and healthy equals connected |
| IntegrationProofs.AttemptsAreConsecutiveFailures | backend/services/integration_service.py:307-309 | refresh_attempts is the number of consecutive failures since the last success or authentication |
| IntegrationProofs.VerdictsAddUp | backend/services/integration_service.py:283-325 | Refreshed, failed and skipped add up to the tokens of a pass |
| IntegrationProofs.PassTouchesOnce | backend/services/integration_service.py:283-325 | A pass leaves tokens outside its list alone and each token in it as one attempt on that token alone would |
| IntegrationProofs.PassKeepsInv | backend/services/integration_service.py:279-325 | A pass over refreshable tokens keeps the invariant |
| IntegrationProofs.RefreshedIsNotDue | backend/services/integrations/providers.py:84-103 | With a new expiry one hour on, a token refreshed by an instantaneous pass is still due at its end if and only if the window is 60 minutes or more |
| IntegrationProofs.KeyIsLastAttempt | backend/services/integration_service.py:509-522 | Over any interleaving of calls the lock key stands for the last attempt on its integration |
| IntegrationProofs.TurnedAwayIff | backend/services/integration_service.py:509-522 | With Redis a call is turned away if and only if the integration was attempted less than the lock time ago |
| IntegrationProofs.AttemptsAreSpaced | backend/services/integration_service.py:287-288 | Two attempts on one integration are at least integration_refresh_lock_seconds apart, however workers interleave |
| IntegrationProofs.RunAttemptsAreSpaced | backend/services/integration_service.py:279-288 | In any run, with any calls in between, two attempts on one integration that are not turned away are at least the lock time apart |
| IntegrationLaws.ConnectAnswers | backend/services/integration_service.py:97-161 | A connection conflicts if and only if the organization has one with the provider that is not disconnected; otherwise it takes the disconnected row or a new one, pending without credentials or connected with the granted expiry, and touches no other |
| IntegrationLaws.SecondConnectConflicts | backend/services/integration_service.py:100-101 | A connection that has been begun conflicts with the next one |
| IntegrationLaws.AuthenticateAnswers | backend/services/integration_service.py:163-203 | A callback connects exactly the integration its state names, if the provider and the organization match, with fresh credentials; every other callback changes nothing |
| IntegrationLaws.ValidateAnswers | backend/services/integration_service.py:208-225 | Validation is possible exactly for integrations that are connected, expired or validation_failed; the verdict decides which of connected and validation_failed follows, and the credentials stay |
| IntegrationLaws.DisconnectAnswers | backend/services/integration_service.py:257-277 | A disconnected integration has no live token, cannot be validated, is never due, and is the one the next connection takes up |
| IntegrationLaws.RefreshableIff | database/repositories/integration.py:83-94 | In any run a token is refreshable if and only if the last of the authentications, verdicts and disconnections of its integration is an authentication or a good verdict; failed refreshes do not matter |
| IntegrationLaws.BadVerdictStopsRefreshing | backend/services/integration_service.py:214 | After a bad verdict the token is due for no cutoff until a good verdict or an authentication |
| IntegrationLaws.DueIff | database/repositories/integration.py:83-94 | In any run a token is due if and only if it is refreshable in that sense and the expiry last granted is not after the cutoff |
| IntegrationLaws.RefusedStaysDue | backend/services/integration_service.py:307-311 | A pass turns a token away exactly while its lock is held; a refused one ends expired with its error and one more attempt and is due again for the same cutoffs, a renewed one is connected without an error and due by its new expiry |
| IntegrationLaws.LaterPassRecovers | backend/services/integration_service.py:279-325 | A token refused in one pass is connected without an error by a later pass that gets a renewal, with Redis if and only if the lock time is over by then; an earlier pass skips it |
| IntegrationLaws.PassShortensDueList | backend/services/integration_service.py:281 | A pass limited to so many tokens takes exactly its tokens off the due list when all are renewed beyond the cutoff; a negative limit leaves out that many |
| IntegrationServices.IntegrationService.Connect | backend/services/integration_service.py:97-161 | A new or reconnected integration is pending, or connected at once with a code; a live one is a conflict |
| IntegrationServices.IntegrationService.Authenticate | backend/services/integration_service.py:163-203 | A matching state connects the integration from any status with fresh credentials; every mismatch is refused without a change |
| IntegrationServices.IntegrationService.PersistTokens | backend/services/integration_service.py:448-469 | The credential record is created or overwritten with no attempts, no error and no revocation |
| IntegrationServices.IntegrationService.Validate | backend/services/integration_service.py:208-225 | With a live token the status and error follow the provider's verdict; without one the call fails |
| IntegrationServices.IntegrationService.Disconnect | backend/services/integration_service.py:257-277 | The credentials are revoked and the error cleared |
| IntegrationServices.IntegrationService.AcquireRefreshLock | backend/services/integration_service.py:509-522 | The lock is taken exactly when it is free; with Redis nobody gets it again before the lock time has passed, and no other lock changes |
| IntegrationServices.IntegrationService.ListDue | database/repositories/integration.py:83-94 | Lists each due token once, in no particular order |
| IntegrationServices.IntegrationService.RefreshDueTokens | backend/services/integration_service.py:279-325 | A pass tries min(limit, due) tokens, each once; refreshed, failed and skipped add up, and the count returned is that of the refreshed |
| TokenProofs.KeyOutlivesToken | backend/services/token_service.py:20-22 | A key set at any moment lives to the token's expiry or beyond, and for at least a moment |
| TokenLaws.KeysLapseWithTokens | backend/services/token_service.py:20-22 | In every run each key lapses with its token or less than a second after it |
| TokenProofs.StepFiled | backend/services/token_service.py:46-112 | Every call keeps the records: keys exist only for issued tokens and outlive them |
| TokenProofs.OldTokenStep | backend/services/auth_service.py:55-211 | A step keeps the key of an older session or one-time token unless it spends it, adds a blacklist key only by revocation, and brings no key back |
| TokenProofs.NewTokenStep | backend/services/auth_service.py:197-211 | A token issued by a step has its key, unless it was born expired or is an access token |
| TokenProofs.PassesIffUnspent | backend/services/token_service.py:82-87 | At every later moment an issued refresh or one-time token passes if and only if it has not expired and no earlier call spent it |
| TokenProofs.SpentAtMostOnce | backend/services/token_service.py:105-112 | Once spent by a rotation, a logout or a consumption, a token never passes again, and a call that presents it is refused |
| TokenProofs.NoRefreshAfterLogout | backend/services/auth_service.py:124-131 | A refresh token presented to a logout never passes again |
| TokenProofs.StepKeepsChains | backend/services/auth_service.py:98-131 | Every call keeps at most one stored refresh token in the chain of each login |
| TokenProofs.OneLiveTokenPerChain | backend/services/auth_service.py:114-122 | So it is in every reachable state |
| TokenProofs.RotationKeepsSessionCount | backend/services/auth_service.py:114-122 | A successful refresh swaps one live session for another and keeps their number |
| TokenLaws.LoginOpensOwnSession | backend/services/auth_service.py:98-112 | A login with the right password of an active, verified user opens a session whose two tokens belong to that user and its organization and work exactly until their own expiries; every other login is refused without a change |
| TokenLaws.RotationStaysWithUser | backend/services/auth_service.py:114-122 | A rotation opens such a session for the user and the organization of the old token, which never passes again; it is refused without a change when the token does not pass or the user is gone or not active |
| TokenLaws.LoginThenRefresh | backend/services/auth_service.py:98-122 | The refresh token of a login opens the user's next session at every moment of its lifetime and at none after |
| TokenLaws.StepKeepsOwners | backend/services/auth_service.py:55-211 | Every call keeps tokens with their registered users and chains of rotations with one user |
| TokenLaws.OwnersThroughout | backend/services/auth_service.py:55-211 | In every run each token names a registered user and the organization that user is in, and the refresh tokens of a chain all belong to the user who logged in |
| TokenProofs.BlacklistedIffRevoked | backend/services/token_service.py:93-99 | An access token's blacklist key is there if and only if the token was revoked |
| TokenProofs.AcceptedIffNotRevoked | backend/services/token_service.py:93-103 | At every later moment an access token is accepted if and only if it has not expired and was not revoked: the blacklist never lapses first |
| TokenProofs.SessionWorksUntilExpiry | backend/services/auth_service.py:197-211 | Both tokens of a new session belong to its user and work exactly until their own, rounded-down lifetimes end |
| TokenProofs.OneTimeWorksUntilExpiry | backend/services/token_service.py:46-71 | A one-time token passes exactly until its rounded-down lifetime ends |
| TokenProofs.RegisterVerifyLogin | backend/services/auth_service.py:55-166 | A registered user cannot log in before verification, which works until its token expires, and afterwards exactly with the registered password |
| TokenProofs.InviteAcceptLogin | backend/services/auth_service.py:168-195 | An invited user cannot log in before accepting, which works until the invitation expires, and afterwards exactly with the chosen password |
| TokenProofs.ForgotResetLogin | backend/services/auth_service.py:133-155 | A reset works until its token expires, lets in exactly the new password, and lets in nobody who was not active and verified |
| TokenLaws.NewUsersGetTokens | backend/services/auth_service.py:70-89 | A registration adds one pending user and an invitation one invited user; the verification token needs a positive lifetime, the invitation lasts seven days |
| TokenLaws.ForgottenPasswordAnswers | backend/services/auth_service.py:133-145 | A forgotten password changes no user; an unknown one is answered without an error |
| TokenLaws.VerificationAlwaysActivates | backend/services/auth_service.py:157-166 | A verification that passes uses up its token, changes no other user, and lets its user in with the password it has whatever the status was, suspended included |
| TokenLaws.InvitationNeedsInvited | backend/services/auth_service.py:186-195 | An invitation that passes is used up in every case and is accepted if and only if its user is still invited, who then logs in exactly with the new password |
| TokenLaws.ResetOnlyChangesPassword | backend/services/auth_service.py:147-155 | A reset that passes uses up its token and changes only the password of its user; who could not log in before still cannot |
| TokenLaws.LogoutRevokesBoth | backend/services/auth_service.py:124-131 | After a logout neither token works any more, whether the call failed or not, and every other token works as before; it fails exactly when the refresh token does not decode |
| TokenProofs.OrphanIsSpent | backend/services/auth_service.py:147-153 | A one-time token whose user is gone is spent all the same: the call reports the missing user and the token never passes again |
| TokenProofs.InactiveKeepsSession | backend/services/auth_service.py:114-118 | A refresh is refused for its user, without any change, if and only if the user is gone or not active; the session then still passes |
| TokenProofs.DeletedWorkspaceIsShut | backend/services/organization_service.py:38-43 | Once a workspace is deleted no user of it ever logs in, refreshes a session or uses a one-time token again |
| TokenServices.TokenService.CreateToken | backend/core/security.py:75-124 | A token gets an id that was never issued before, is recorded without losing another, and expires its lifetime after now, rounded down to a second |
| TokenServices.TokenService.IssueOneTimeToken | backend/services/token_service.py:46-71 | The token is issued and its key set; a token that is born expired gets no key and an error |
| TokenServices.TokenService.StoreRefreshSession | backend/services/token_service.py:73-80 | Sets the session key of a refresh token that decodes |
| TokenServices.TokenService.GetRefreshSession | backend/services/token_service.py:82-87 | Succeeds exactly when the token decodes and its session key is alive |
| TokenServices.TokenService.RevokeRefreshToken | backend/services/token_service.py:89-91 | Deletes the session key of a refresh token that decodes |
| TokenServices.TokenService.RevokeAccessToken | backend/services/token_service.py:93-99 | Blacklists an access token that decodes for its remaining life |
| TokenServices.TokenService.IsAccessTokenRevoked | backend/services/token_service.py:101-103 | An error for a token that does not decode, and otherwise whether it is blacklisted |
| TokenServices.TokenService.ConsumeOneTimeToken | backend/services/token_service.py:105-112 | Succeeds exactly when the token decodes and its key is alive, and deletes the key |
| TokenServices.AuthService.Register | backend/services/auth_service.py:70-89 | Adds a pending user and issues the verification token |
| TokenServices.AuthService.InviteUser | backend/services/auth_service.py:168-184 | Adds an invited user and issues the seven-day invitation |
| TokenServices.AuthService.ForgotPassword | backend/services/auth_service.py:133-145 | Issues a reset token for a known user; an unknown one is answered alike |
| TokenServices.AuthService.Login | backend/services/auth_service.py:98-112 | Opens a session for the right password of an active, verified user only |
| TokenServices.AuthService.Refresh | backend/services/auth_service.py:114-122 | Replaces the session key of a passing token by that of a new one, for an active user only |
| TokenServices.AuthService.Logout | backend/services/auth_service.py:124-131 | Blacklists the access token if it decodes and deletes the session; an error in the second part does not undo the first |
| TokenServices.AuthService.ResetPassword | backend/services/auth_service.py:147-155 | Spends the token and sets the password of its user, if there is one |
| TokenServices.AuthService.VerifyEmail | backend/services/auth_service.py:157-166 | Spends the token and activates its user, whatever the status was |
| TokenServices.AuthService.AcceptInvite | backend/services/auth_service.py:186-195 | Spends the token and activates an invited user with the new password; any other status is refused |
| TokenServices.AuthService.IssueSessionTokens | backend/services/auth_service.py:197-211 | Issues an access and a refresh token and stores the session of the second |
| Prompts.ReplaceIsOneEntry | backend/services/employee_service.py:52 | Replacing one placeholder is adding one entry to the simultaneous substitution, when no value can become part of a later placeholder |
| Prompts.ReplaceKeepsFlat | backend/services/employee_service.py:52 | Replacing a placeholder by text without braces keeps a template without nesting that way |
| Prompts.FillIsSim | backend/services/employee_service.py:50-52 | For such a template and entries without braces the loop is one simultaneous substitution |
| Prompts.OrderDoesNotMatter | backend/services/employee_service.py:51-52 | So any two orders of the same dictionary give the same prompt |
| Prompts.FaithfulIffFlat | backend/services/employee_service.py:50-52 | The loop agrees with the simultaneous substitution for every dictionary without braces if and only if no pair of braces in the template encloses a complete placeholder |
| Prompts.OrderMattersWithBraces | backend/services/employee_service.py:51-52 | A value that is itself a placeholder is read again when its entry comes first, and stays when it comes last |
| PromptEntries.SafeValueIff | backend/services/employee_service.py:50-52 | A value is filled in as the simultaneous substitution does, under every key, in every template without nesting and with any entries without braces behind it, if and only if it holds no brace; and exactly then it may as well be filled in last |
| PromptEntries.SafeKeyIff | backend/services/employee_service.py:50-52 | The same for a key with any value without braces: if and only if it holds no brace, or its placeholder is itself nested and so occurs in no such template |
| Prompts.EmployeeService.BuildPrompt | backend/services/employee_service.py:44-58 | The filled template and the prompt parts joined by blank lines; the error cases; and the simultaneous form for templates without nesting |

## Left out

- Routers, middleware, request and response schemas, migrations and settings loading: plumbing without an algorithm.
- SQLAlchemy, Redis, JWT signing, bcrypt, AES-GCM and SHA-256: modelled as maps, a list, keys with expiry and injective values; their failures, lost connections and clock skew are not modelled.
- Interleavings inside a service call, except between calls of the refresh lock: a call is one step, so get-then-delete and invalidate-then-commit are atomic.
- Floating-point rounding, and the six-digit rounding of a returned score: scores are exact reals.
- Document parsers: a parameter from the upload to its text, which is all the index depends on; the example runs use only that the plain-text parser hands on a pasted text of one word (backend/services/knowledge/parsers.py:40-73).
- Chunk headings, checksums and row metadata, titles, mime types, log rows, counters for the health page and timestamps beyond whether they are null: functions of the modelled values that no modelled decision reads.
- Description, status and metadata of a knowledge base, and the listing and serializing calls: no modelled call reads them.
- The request fields the search ignores (the base in the filters, and the search type): one uninterpreted field that only tells cache keys apart.
- An absent and an empty optional string of an upload are one value: the source treats them alike where it decides anything.
- A document without a current version: no committed state has one.
- Deleting a workspace: its role check, and the knowledge and integration rows that go with it; only its users are modelled.
- Integration permissions, role checks, the actions run against a provider and its metadata: each is one branch or does not touch status and credentials.
- Conflict checks on e-mail and domain in registration and invitation, and the organization lookup in login: single branches over tables that are not part of this model; a user stands for an e-mail address.
- The issued-at check of a decoded token: it passes on a clock that never goes back.
- Creating and cloning employees: they copy fields.
- The runtime planner, executor, graph and tool retry: a fixed plan and a short counter loop.
- KnowledgeServices.KnowledgeService.constructor: requires a cache lifetime of at least one second, since Redis refuses others, and an embedding function of one dimension.
