# A verified model of sourcachefs

sourcachefs is a persistent, read-only caching file system in front of a slow
remote tree. It stacks three caches: a metadata table with one row per known path,
a content-addressed object store, and node objects that remember what they have
seen. This project models all three and proves that they agree with the remote
tree they speed up, over whole runs with interleaved handlers, failures, crashes
and remounts.

## How the model is built

* `Text`, `Paths`, `DirEntries` — string splitting, decimal numbers, `filepath.Join`
  and the text column that holds a directory listing.
* `Metadata`, `Content`, `Sqlite` — the table and its SQL statements, the object
  store and the copy loop, and the retry loop.
* `Handlers` — every operation (`Lookup`, `Attr`, `ReadDirAll`, `Readlink`, `Open`
  and the root set-up) as a small-step machine. One step is one SQL statement, one
  remote call or one call on the cache directory; its outcome comes from an
  `Answer`, so statements may fail and the remote tree may say anything.
* `Runs` — whole runs: any number of handlers on any nodes, interleaved step by
  step under the per-node locks, with crashes (process memory is lost, table and
  store stay) and remounts. `log` records every reply ever given.
* `Structure`, `StructureSteps`, `Safety`, `Guarantees`, `Races`, `Ancestry` — what
  holds for a remote tree that changes and fails in any way.
* `Remote`, `TruthSteps`, `Transparency`, `Agreement` — what holds for an immutable
  tree whose calls may fail but do not lie.
* `Offline`, `Archive`, `Remounts` — operation without the remote tree, what stays on
  disk for it, and mounts with changing regular expressions.
* `Persistence`, `Fallback`, `Reopening`, `Accounting` — what a node remembers, what it
  falls back on, what later calls of Open give, and the statistics.
* `Outcomes`, `ListingOutcomes`, `OpenOutcomes`, `Meaning`, `Progress` — what each
  operation is for, written out from the answers of the remote tree without its machine:
  the reply, the table, the store, the node and the statistics it ends with; that every
  operation ends; and, over runs, that an error always has a cause outside the caches.
* `Solo`, `Caches`, `Nodes` — the program's objects (`MetadataCache`,
  `ContentCache`, `Dir`, `File`, `Symlink`, open files) with fields that are updated
  in place. Each operation is proved to end, on every sequence of answers, in the
  state, the statistics and the reply of its machine, having asked for its own remote
  path only, and to mean what its outcome says; so the theorems about the machines are
  theorems about the operations.

### Hypotheses

They are named predicates and appear only where they are needed.

* `Structure.WfConfig`: the remote and the cache directory have non-empty names.
* `Structure.WfAnswer`: names in a remote listing do not contain `\x01`. The listing
  format does not escape it; `DirEntries.RoundTripIff` shows that this is exactly
  when a listing can be read back.
* `Remote.Ideal`, for an immutable tree only: `WfTree` (the root is a directory),
  `StoredFaithfully` (the text columns give the tree's link targets and digests back
  unchanged) and `NoCollision` (no two files *of the tree* collide under MD5).
* `!Structure.Mangled`: the text column gives the keys of the objects that are in the
  store back unchanged. It is about these keys only and can be checked on the disk.

The columns `contentHash` and `target` are declared `STRING`, to which SQLite gives
NUMERIC affinity, so a text that looks like a number may come back in another form.
The model keeps this: a text column returns `affinity(text)`. `StoredWhenAnswered`
proves that the value served after a remount is the original one exactly when
`affinity` leaves it alone, and `NeverFatal` that a changed key is the only way to an
abort.

Each SQL statement is atomic. Row ids are any unused positive 63-bit numbers. MD5 is
an arbitrary function to 16 bytes, and the regular expression an arbitrary predicate
on paths. Names of temporary files are never handed out twice. Texts are sequences of
characters.

## Model

| member | source | states |
|---|---|---|
| `Text.SplitJoin` | internal/cache/metadata.go:196-197 | splitting undoes joining when no piece contains the separator |
| `Text.JoinSplit` | internal/cache/metadata.go:196-197 | joining the pieces of a split text gives the text back |
| `Text.ParseUintOfDigits` | internal/cache/metadata.go:199-202 | a printed number parses back to itself exactly below 2^64 |
| `Paths.CleanIdempotent` | internal/fs/dir.go:66 | cleaning a path twice changes nothing and keeps its components |
| `Paths.PartsMean` | internal/fs/dir.go:66 | in a path a name goes one level down and `..` back up again, `.` and repeated separators go nowhere, and nothing is above the root |
| `Paths.JoinCanonical` | internal/fs/dir.go:66 | a child of a canonical directory is canonical and is not the root |
| `Paths.JoinInjective` | internal/cache/metadata.go:396 | different (directory, name) pairs have different paths |
| `Paths.BelowComponents` | internal/fs/root.go:42-43 | the remote path has the remote directory's components followed by those of the mount path |
| `Paths.BelowJoin` | internal/fs/root.go:42-43 | joining a name on both sides keeps path and remote path in step |
| `DirEntries.DirEntryMap.AddDirEntry` | internal/cache/metadata.go:151-177 | fills the map in place; the first entry of a name wins and an unknown type is an error that changes nothing |
| `DirEntries.DirEntryMap.ParseDirEntries` | internal/cache/metadata.go:192-211 | the loop computes the recursive parse, and on an error keeps what was in the map |
| `DirEntries.FormatParse` | internal/cache/metadata.go:192-211 | reading a stored listing on top of any map adds exactly the entries of the listing |
| `DirEntries.CollectDistinct` | internal/cache/metadata.go:151-177 | a duplicate-free listing maps each name to its own inode, validity and type, and has no other names |
| `DirEntries.RoundTripIff` | internal/cache/metadata.go:421-424 | a stored listing reads back as itself if and only if no name contains `\x01` |
| `DirEntries.SeparatorInNameBreaks` | internal/cache/metadata.go:421 | a listing with the name `a\x01b` does not survive the round trip |
| `DirEntries.EmptyListing` | internal/cache/metadata.go:193-195 | only the empty directory has the empty text |
| `Sqlite.WaitOrErr` | internal/cache/sqlite.go:78-94 | contention adds the increment to the accumulator, sleeps that long and asks for a retry; anything else is final |
| `Sqlite.RetryExec` | internal/cache/sqlite.go:157-170 | returns the first outcome that is not contention; the k-th sleep is the k-th accumulated delay |
| `Sqlite.DelayBounds` | internal/cache/sqlite.go:28-33 | delays never shrink and stay within base and base plus k times the largest increment |
| `Sqlite.TotalDelayBound` | internal/cache/sqlite.go:78-94 | n contended attempts sleep between n bases and n bases plus the triangular sum of increments |
| `Content.HexAt` | internal/cache/content.go:143 | each byte of a digest has two lower-case hexadecimal digits in its key, the high one first |
| `Content.HexInjective` | internal/cache/content.go:143 | different digests have different keys |
| `Content.PathForKeyComponents` | internal/cache/content.go:52-59 | an object lives in the bucket of its first two digits, two levels below the cache directory |
| `Content.PathForKeyInjective` | internal/cache/content.go:56-59 | different keys have different object paths |
| `Content.ObjectsApart` | internal/cache/content.go:128-133 | an object never shares its path with a file directly in the cache directory |
| `Content.TempTopLevel` | internal/cache/cache.go:36 | temporary files and metadata.db are directly in the cache directory and differ |
| `Content.Copy2` | internal/cache/content.go:88-118 | the loop over any chunking leaves both sinks, the count and the error as the recursive copy says |
| `Content.CopyIsTee` | internal/cache/content.go:88-118 | success puts the whole source into both sinks; an error leaves a prefix of the source and a prefix of that; the count is the growth of the first sink; it succeeds if and only if the source does not fail and every write is complete |
| `Metadata.SelectsRow` | internal/cache/metadata.go:214-223 | with unique paths a query by path finds the row that has the path |
| `Metadata.RowsAffected` | internal/cache/metadata.go:284-304 | an update by path affects one row if the path is known and none otherwise |
| `Structure.InsertOK` | internal/cache/metadata.go:270-279 | an insert keeps the table consistent and leaves all other rows alone |
| `Structure.UpdateTypeOK` | internal/cache/metadata.go:281-292 | a type update of a child of a direct directory keeps the table consistent and pinned rows unchanged |
| `Structure.StoredListing` | internal/cache/metadata.go:393-429 | the text PutDirEntries stores reads back as references to the rows of the children |
| `StructureSteps.StepOK` | internal/fs/dir.go:62-269 | every action of every handler keeps table, store and handler consistent, lets table and objects only grow, and touches no other handler's temporary file |
| `StructureSteps.RenameOK` | internal/cache/content.go:159 | publishing a finished temporary file keeps every object's digest equal to its key and every other temporary file as it is |
| `Safety.NextOK` | internal/fs/dir.go:62-269 | every event, including crashes and remounts, keeps the invariant of the whole state |
| `Safety.ExecOK` | internal/fs/root.go:248-327 | so does every run |
| `Guarantees.PathsAndInodes` | internal/cache/metadata.go:270-306 | a path keeps its inode and an inode its path forever, no two paths share one, and set columns stay set |
| `Guarantees.NodePaths` | internal/fs/root.go:41-46 | every node's two paths carry the same components and its inode is the row of its path |
| `Guarantees.StickyLookup` | internal/fs/dir.go:68-158 | below a cached directory the first row of a name fixes type and inode for all lookups of all later mounts, whatever the remote tree does |
| `Guarantees.StoreIntegrity` | internal/cache/content.go:121-165 | at every step of every run each object holds bytes whose digest is its key |
| `Guarantees.NoDanglingHash` | internal/fs/file.go:105-150 | at every step no hash in the table, in a node, in a remembered row, in the node a running handler works on, or about to be recorded is without its object, if no stored key is mangled |
| `Guarantees.OpensMatchHash` | internal/fs/file.go:150-165 | whatever the remote tree does, an Open that succeeds gives bytes whose digest is the hash of its node |
| `Guarantees.ListingsRefer` | internal/cache/metadata.go:393-429 | at every step each entry of a stored listing refers to the row of that name below the directory |
| `Guarantees.NeverFatal` | internal/cache/metadata.go:234-237 | file details are all set or all NULL, updates by path affect at most one row, and no reply is an abort unless a key is mangled |
| `Races.LostRace` | internal/fs/dir.go:139-143 | once the path a handler is about to insert has a row, in Lookup, in a listing or in the root set-up, its next action returns an error and changes nothing else; the winner's row, all nodes and what the listing had collected stay |
| `Races.OneWinner` | internal/cache/metadata.go:404-417 | of two handlers about to insert the same path, the first one decides the row id of the path for good and the other one returns an error |
| `Ancestry.ReachableRooted` | internal/fs/dir.go:75-158 | in every reachable state every row has the row of its directory above it, up to the root |
| `Ancestry.RowsAreKnown` | internal/fs/dir.go:75-158 | a row that is no whiteout and is cached with everything above it can be walked to from the root |
| `TruthSteps.StepTrue` | internal/fs/dir.go:62-269 | on an immutable tree every action keeps table, store, nodes and handlers in agreement with the tree |
| `TruthSteps.UpdateTypeTrue` | internal/fs/dir.go:88-93 | on an immutable tree a type update writes the type that is already there |
| `Transparency.ExecTrue` | internal/fs/root.go:41-192 | the agreement holds in every state of every run on the tree |
| `Transparency.TransparentRuns` | internal/fs/dir.go:62-269 | every reply of every operation in every interleaved run with failures, crashes and remounts is what the remote tree itself says |
| `Remounts.TransparentSessions` | internal/fs/root.go:248-327 | the same over any sequence of mounts, each with its own regular expression of cached paths |
| `Remounts.SessionsOK` | internal/fs/root.go:248-327 | over any such sequence and for any remote tree, rows keep inode, path and set columns, objects stay, and a row keeps its type if its directory is cached in every mount |
| `Remounts.OfflineUnder` | internal/fs/root.go:194-230 | a mount with another regular expression serves the stored columns of all paths whose directories are cached now, without a remote call |
| `Agreement.FastPathRefines` | internal/fs/dir.go:68-73 | a remembered row is what a fresh query returns, except for columns that were NULL when it was read |
| `Agreement.SameAnswers` | internal/fs/root.go:41-91 | any two nodes of a path give the same successful answers, however they were made |
| `Agreement.ReaddirAgreesWithLookup` | internal/fs/dir.go:165-269 | a name is listed with an inode and a type exactly when Lookup finds it with them, whichever ran first |
| `Agreement.ObjectsNeverChange` | internal/cache/content.go:145-165 | the bytes of an object never change, even under concurrent puts |
| `Offline.OfflineAfterRemount` | internal/fs/root.go:194-230 | after a crash anywhere, with the remote tree unreachable, mounting and walking to a stored path of any depth serves every stored column with its stored value and no remote call |
| `Offline.Walk` | internal/fs/dir.go:75-158 | the walk from the root reaches a node made from the stored row |
| `Archive.AnswersAreStored` | internal/fs/root.go:143-192 | in every run, after a successful Attr, Readlink, ReadDirAll or Open below a cached directory, its column is stored in every later state |
| `Archive.AnsweredOffline` | internal/fs/dir.go:75-158 | in every run, what has been answered once on a path cached with everything above it is served from its column after a crash at any later moment, at any depth and without a remote call |
| `Archive.SameAnswerOffline` | README.md:13-15 | on an immutable tree it is the same answer |
| `Archive.StoredWhenAnswered` | internal/cache/metadata.go:366-390 | in every run, a value that has just been fetched and answered is what a remount would serve; a link target or hash exactly if the text column gives it back unchanged |
| `Persistence.FirstAnswerStays` | internal/fs/root.go:143-192 | after the first answer of a cached node to Attr, Readlink or ReadDirAll all later calls on it give that answer as hits |
| `Reopening.FirstOpenStays` | internal/fs/file.go:105-150 | after the first successful Open of a cached file every later Open is a hit on the same hash; if both give bytes these have the same digest, and if no key is mangled the later one gives bytes or an error |
| `Fallback.DirectFallsBack` | internal/fs/root.go:143-164 | in every run a direct node whose remote call fails answers Attr and Readlink with the last answer it gave, and goes on with Open from the hash its last Open left |
| `Reopening.DirectOpenAnswers` | internal/fs/file.go:107-165 | in every run a direct file whose remote file cannot be fetched replies with bytes whose digest is the hash its last Open left, whatever others do in between, or with an error if a local call fails |
| `Fallback.StepMemory` | internal/fs/file.go:105-138 | only the operation itself replaces what the node remembers for it, and Attr and Readlink only together with an answer |
| `Accounting.SoundBooks` | internal/fs/root.go:146-185 | every finished Attr, Open, Readlink and ReadDirAll counted exactly one of hit, miss and direct and a Lookup at most one; on a direct node it is always direct, so the remote tree has been asked again; it called the remote tree exactly if it counted a miss or direct; in total remote calls are at least misses plus directs |
| `Accounting.UncountedLookups` | internal/fs/dir.go:68-154 | a Lookup counts nothing if and only if it is served from the remembered rows or its first query fails |
| `Outcomes.LookupAnswers` | internal/fs/dir.go:62-159 | with nothing failing on this side, a remembered or cached row is answered column by column; otherwise an entry that exists is stored and answered with the type of its mode, a failed call answers the known row, a missing entry of an unknown path is stored and answered as a whiteout, and only another failure is an error |
| `Outcomes.MountAnswers` | internal/fs/root.go:194-230 | the root set-up succeeds on a table with and without a row for "/", cached or direct, and its node has the inode of that row and type directory |
| `Outcomes.AttrAnswers` | internal/fs/root.go:143-192 | fresh attributes are stored in their columns, remembered and answered; only a failed call falls back on known ones, or is an error |
| `Outcomes.ReadlinkAnswers` | internal/fs/symlink.go:58-106 | the same for the target of a link |
| `ListingOutcomes.ReaddirAnswers` | internal/fs/dir.go:165-269 | the reply has exactly the names of the remote listing, each with the inode of the row of its path and, for distinct names, its type; the rows made are those of new names; a direct directory that cannot be opened answers its stored listing |
| `OpenOutcomes.OpenAnswers` | internal/fs/file.go:101-166 | a file that is direct or has no hash is fetched; what this call delivers is put under its digest, recorded and answered unless an object was there already; if it cannot be fetched or written, a direct file falls back on its hash |
| `OpenOutcomes.FetchedBytes` | internal/cache/content.go:145-165 | the bytes answered after a fetch have the digest of the bytes delivered in the same call, and are these bytes if and only if no colliding object was there |
| `Meaning.CallAsks` | internal/fs/root.go:41-46 | every operation asks the remote tree for the path of its own node or entry, once, and only if it counts a remote call |
| `Meaning.Ends` | internal/fs/dir.go:247-268 | every operation ends after a number of actions bounded by its kind and the length of the remote listing, whatever the actions meet |
| `Progress.CallAnswers` | internal/fs/dir.go:62-269 | in every reachable state a call that nobody disturbs ends, is logged, and does what its outcome says |
| `Progress.MountSucceeds` | internal/fs/root.go:281-289 | in every reachable state, that of a new cache directory included, mounting succeeds if nothing fails on this side, and the root node is there |
| `Progress.ErrorsHaveCauses` | internal/fs/dir.go:75-156 | in every interleaved run an action ends in an error if and only if a statement or local call failed, a race for a row is lost, or the remote tree failed with nothing to fall back on; and an error changes nothing |
| `Progress.PutsFailWithCause` | internal/cache/content.go:121-165 | in every run a fetch is given up if and only if the source or a write fails, or a local call does |
| `Caches.MetadataCache.GetFullEntry` | internal/cache/metadata.go:214-257 | the query returns the row of the path with its parsed listing, no row, an error, or the abort on half-set file details |
| `Caches.MetadataCache.GetDirEntries` | internal/cache/metadata.go:180-190 | the stored listing of a row; a NULL column gives an empty map and a missing row an error |
| `Caches.MetadataCache.PutNew` | internal/cache/metadata.go:270-279 | inserts a row, or fails and changes nothing when the path is known |
| `Caches.MetadataCache.PutNewOrUpdate` | internal/cache/metadata.go:281-306 | updates the type of a known path or inserts a new row; the panic for several rows is never reached |
| `Caches.MetadataCache.PutFileInfo` | internal/cache/metadata.go:366-372 | sets the three detail columns of the row with that inode together |
| `Caches.MetadataCache.PutContentHash` | internal/cache/metadata.go:375-381 | sets the hash of the row with that inode |
| `Caches.MetadataCache.PutSymlinkTarget` | internal/cache/metadata.go:384-390 | sets the target of the row with that inode |
| `Caches.MetadataCache.PutDirEntries` | internal/cache/metadata.go:393-429 | the loop follows the machine's statements: every entry gets a row and the listing text is stored, or an error stops it |
| `Caches.ContentCache.HasKey` | internal/cache/content.go:76-86 | tells whether the object of the key exists |
| `Caches.ContentCache.PutContents` | internal/cache/content.go:121-165 | follows the machine from the remote open to the key or the failure; on success the key is that of the whole delivered content and its object is there, as it was before or with these bytes; every file that was there before is unchanged |
| `Caches.PutThenGet` | internal/cache/content.go:145-165 | what a key leads to after a put has the digest of the bytes put, and is these bytes if and only if no colliding object was there before |
| `Nodes.NewNodeForEntry` | internal/fs/root.go:41-91 | makes a node object of the row's type, or ENOENT for a whiteout |
| `Nodes.CommonAttr` | internal/fs/root.go:143-192 | does what the machine of Attr does, for the fileInfo passed in and out, and means what `AttrMeans` says |
| `Nodes.StoreType` | internal/fs/dir.go:88-104 | stores the type by update or insert as the machine does |
| `Nodes.ListEntries` | internal/fs/dir.go:247-268 | lists exactly the valid entries, each once, whatever order the map is traversed in |
| `Nodes.Dir.Lookup` | internal/fs/dir.go:62-159 | does what the machine of Lookup does on every sequence of answers, means what `LookupMeans` says, and returns the node as an object |
| `Nodes.Dir.ReadDirAll` | internal/fs/dir.go:165-269 | does what the machine of ReadDirAll does, means what `ReaddirMeans` says, and returns the entries without repetition |
| `Nodes.Dir.Attr` | internal/fs/dir.go:52-57 | does what the machine of Attr does |
| `Nodes.File.Attr` | internal/fs/file.go:91-96 | does what the machine of Attr does |
| `Nodes.File.Open` | internal/fs/file.go:101-166 | does what the machine of Open does, means what `OpenMeans` says, and the handle reads the bytes of the reply |
| `Nodes.OpenFile.Read` | internal/fs/file.go:42-54 | fills the response byte by byte with the file from the offset on, as much as is asked for and there, or as was read before a failure, and counts a hit |
| `Nodes.OpenFile.Release` | internal/fs/file.go:58-70 | closes once; a failed close keeps the reader and a second release is harmless |
| `Nodes.Symlink.Attr` | internal/fs/symlink.go:48-53 | does what the machine of Attr does |
| `Nodes.Symlink.Readlink` | internal/fs/symlink.go:58-106 | does what the machine of Readlink does and means what `ReadlinkMeans` says |
| `Nodes.MountRoot` | internal/fs/root.go:281-289 | does what the machine of the root set-up does, means what `MountMeans` says, and returns the root node |
| `Nodes.PutAndGetRow` | internal/fs/root.go:194-230 | stores the type of any path and reads its row back as the machine does |

## Left out

- FUSE mounting and serving, signal handling and the unmount loop: calls into code that is not part of this model.
- The HTTP status page, flag parsing, logging, build and lint scripts.
- `newNodeForOneDirEntry` and the `DidReadDir` field: nothing uses them.
- Remote entries that are neither file, directory nor symbolic link: `sqlTypeName` panics on them, so `ModeType` has three values.
- The retry of `RetriableRow.Scan` and `RetryQuery`: they repeat a scan or query whose behaviour is that of `database/sql`; `RetryExec` has the same back-off.
- `Sqlite.RetryExec`: delays are unbounded integers; the 64-bit duration would overflow only after more than 10^10 retries.
- Loss of power: the pragmas turn journalling and syncing off. A crash here loses the memory of the process only.
- Several processes on the same cache directory at the same time.
- Modification times outside the range of 64-bit nanoseconds, and the base name inside `cachedFileInfo`, which no operation reads.
- Closing remote files and the cache's own `Close` and statement preparation: they have no effect on the state of the model.
- `Guarantees.NoDanglingHash`: assumes that no key of a stored object is mangled; without that the exact statement about each hash is `Structure.HashOK`.
- `Reopening.FirstOpenStays`: fixes the digest and not the bytes, because two racing puts of colliding contents may replace an object; `Agreement.ObjectsNeverChange` covers the immutable tree.
- A hash that the text column has turned into something that is no key: what `pathForKey` makes of it is not followed further.
