# A model of the groot-btrfs layer store

groot-btrfs keeps a cache of filesystem layers, one btrfs volume per chain ID, shared by any number of `create`,
`clean` and `delete` processes that coordinate only through file locks, atomic renames and name prefixes. This
project models that store in Dafny and proves what it promises: that the cache never lies, that garbage collection
never takes a layer from under a registered image, that waiting never deadlocks, and that the smaller normal forms and
orders the store leans on (chain IDs, ID mappings, deletion order, metadata paths) are right. `dafny verify
dfyconfig.toml` checks everything.

## How it is laid out

**The protocol** (`Protocol`, `Invariant`, `Effects`, `LayerSteps`, `CleanSteps`, `ImageSteps`, `Safety`, `Liveness`,
`Metadata`, `MetadataLoss`, `LayerProgress`, `Outcomes`, `Courses`, `Leftovers`, `WrongChecks`, `Paths`, `Schedules`,
`LeftoverSchedules`, `CrowdedIds`). A state holds the volumes and their contents,
the metadata files, the image directories, the dependency records, the flock table and one program point per process.
`Protocol.Exec` is one atomic step of one process: `StepLayer` is `buildLayer`, `StepImage` is the image cloner and the
registration, `StepClean` is `Clean`, `StepDelete` is `Delete`, `StepEdge` the rest of `Create`. Every call a step makes
may fail, some failures leave partial effects behind, any process may crash between any two steps (its locks go with it),
and any number of processes may arrive at any time. A run (`IsRun`) is any sequence of such events from the empty store.
The invariant has a part per process, stated at its program point, and a rely condition says what the locks it holds
protect from the others; it is indexed by a set of trusted layers, those whose second existence check has not erred. The
unpacker and the base-directory step are fields of `Contents.Config`, any functions of the
layer and the trees at hand, as the unpacker is an interface in the source: what is proved of the protocol holds whatever
the layers contain. `Contents.Denote` is what a chain ID should hold: its layers applied one after another from the empty
tree.

**Layer contents** (`Trees`, `Layers`, `LayerSpec`, `UnpackConditions`, `Markers`, `Unpacker`, `BaseDirectory`, `Stacks`). The in-place unpack
loop is proved equal to `Layers.UnpackLayer`, and that function is compared with the OCI Image Format Specification 1.0.1
(`layer.md`, sections "Whiteouts" and "Opaque Whiteout"): `LayerSpec.IsOverlay` is the order-free reading of those
sections. These rules cover everything but hard links, paths through symbolic links, and a few odd whiteouts; there the
outcome is `Unmodelled`. `Stacks` puts the rules to work on whole chains: in a store whose calls do what the rules say
wherever they reach (`Stacks.Follows`), every chain within their reach denotes what they make of it.

**One process at work** (`Drivers`, `Puller`, `GarbageCollector`, `SoloPull`, `SoloClean`). The same pull and the same
clean as imperative code on a driver with mutable volumes, for the claims that concern a run without interference: a pull
rebuilds exactly what is missing, and cleaning converges. `SoloPull` and `SoloClean` prove that the protocol's own steps,
run alone, come to the same volumes and metadata.

**Normal forms and orders** (`ChainIds`, `Names`, `IdMappings`, `Numbers`, `StringOrder`, `Namespacer`, `Lister`,
`Measurer`, with `Words`, `Strings` and `Options` below them).

## What is assumed

- At most one Create or Delete per image ID is in flight (`Protocol.Possible`). Without it the loser of a race on
  `Mkdir` cleans up the winner's image (store/image_cloner/image_cloner.go:70-92; `CrowdedIds.RaceLosesImage`), and a late
  `Deregister` drops a fresh record (groot/deleter.go:34-39; `CrowdedIds.LateDeregisterDropsRecord`).
- The `stat` that closes the image cloner's `Destroy` answers truthfully. Any error of it counts as success there
  (store/image_cloner/image_cloner.go:164-169), so that a Delete would go on to remove the record
  of an image that is still listed: `CrowdedIds.UnnoticedFailureAbandons`.
- Nothing is assumed of the existence checks of `buildLayer`, which read any error of `stat` as "absent". The contents of
  the cache, the locks, progress, and what cleans mark and failed Creates leave are right however they answer. A wrong
  answer to the second check, about a layer that is there, can cost that layer's volume, and a right one cannot
  (`WrongChecks.WrongCheckLosesIff`). So the results that claim the presence of a volume, or the state of its metadata,
  say so: they hold for every layer whose second checks have not erred (`Safety.NeverErred`), whatever happened to others.
- SHA-256 is injective, prints as hexadecimal, and hits no diff ID (`ChainIds.GoodHash`, `Names.HexHash`). Under that
  assumption the protocol's free `ChainId` and `VolName` datatypes are faithful: `RenderInjective` and `NamesDistinct`.
  Layer lists are not empty.
- Every process agrees on what unpacking a layer, and its base-directory step, make of a tree (`Contents.Config`). Where
  the tree rules reach, this comes down to the blobs, the ID mappings, and the base-directory annotations of a chain
  (`Stacks.SameAnnotationsSameContents`). The last is a real assumption, since the chain ID does not cover the
  annotation: `Stacks.AnnotationChangesContents`.
- Renaming onto an existing directory yields EEXIST, which `MoveVolume` takes for success, whether or not the source
  exists.

## Where the code differs from what one might expect

- The chain ID hashes bare hexadecimal strings, not `sha256:`-prefixed digests as section "Layer ChainID" of the
  image specification's `config.md` has it; the model follows the code.
- After a failed unpack the code destroys the volume's final name, not the temporary one
  (base_image_puller/base_image_puller.go:272). `Safety.SingleBuilder` shows that the final name is absent then,
  unless a second check of the layer has erred, so
  nothing is lost but the metadata file.
- In the image cloner's `Create` the variable `err` is shadowed at lines 108 and 122, so those failures skip the cleanup
  and leave the image (`LeftoverSchedules.LeftoverWithoutRecord`); together with a failed cleanup they are the only way a Create
  that does not crash leaves one without registering it (`Leftovers.FailedCreateLeavesIff`). While such an image has no
  complete record no clean marks anything, until a Delete of it (`Leftovers.AbandonedBlocksCleans`). It can have one: the
  record of a predecessor whose Delete never got to remove it (`LeftoverSchedules.LeftoverWithStaleRecord`), and that is the
  only exception (`Leftovers.StuckCreateAbandonsIff`).
- A finished volume can lose its metadata when its layer is rebuilt between mark and collection:
  `Schedules.MetadataCanGoMissing`. Without such a rebuild it cannot (`Metadata.MetadataAgrees`), and after any such
  rebuild it can (`MetadataLoss.RebuildLosesMetadataIff`).
- The unpack loop looks for whiteout markers anywhere in a name, and applies an opaque marker when it meets it. Both
  depart from the specification, and `Markers.ClassifyAgreesIff` and `Markers.UnpackRefinesOci` say exactly when it
  shows.
- A blank in the path of any subvolume of the filesystem makes a line of `btrfs subvolume list` unreadable, so that images
  with nested subvolumes can no longer be destroyed: `Lister.Subvolumes.DestroyImage`.
- `translateID` adds the offset from 1, not from the start of the range: `IdMappings.TranslationAgreesIff`.

## Model

| member | source | states |
|---|---|---|
| Safety.StepInv | groot/creator.go:51-130 | Every step of every process, every arrival and every crash keeps the store's invariant: locks match program points, finished volumes hold what they should, registered images are whole; and for every set of layers to which no second check is answered wrongly, that what should be there is there. |
| Safety.RunInv | groot/creator.go:51-130 | The invariant holds at every moment of every run, for any number of interleaved creates, cleans and deletes with failures and crashes anywhere, for any set of layers whose second checks have not erred. |
| Safety.CacheCorrect | base_image_puller/base_image_puller.go:138-182 | At every moment of every run a volume under a chain ID holds exactly the sequential application of that chain's layers, whatever the unpacker makes of each layer and however the existence checks answer; unless a second check of the layer has erred, a metadata file beside it gives the byte count of its own layer. |
| Safety.RegistrationStays | store/garbage_collector/gc.go:46-79 | No step but the arrival of a Delete for that image ends a registration, and no step removes or alters a volume of a registered chain whose second check it does not answer wrongly. |
| Safety.RegisteredVolumesSafe | store/garbage_collector/gc.go:134-172 | From registration until a Delete of the image starts, the image stays registered and every volume of its chain that is there stays there unchanged, over whole runs, although Delete takes no lock and collection runs outside one, for every layer whose second checks have not erred. |
| Safety.RegisteredImageIntact | groot/creator.go:93-130 | A registered image always has its directory, its complete record, and a snapshot that is the full application of its layers; and its top volume, unless a second check of that has erred. |
| Safety.MarkingSparesEveryImage | groot/cleaner.go:52-66 | Whenever a clean is about to rename a volume, every listed image has a complete record that does not name it, and it is no layer of the image the clean is made for, if a Create makes it, nor of the layers it was told to preserve; one image without a record and nothing is marked. |
| Safety.SharedSectionPinsVolumes | groot/creator.go:93-101 | While any Create is under the shared lock, no step of anyone removes or changes a finished volume, short of a wrong second check of it. |
| Safety.PulledTopStands | store/filesystems/btrfs/driver.go:168-203 | From the end of Pull until the image is registered or its cleanup begins, the top volume is there with the full application of the layers, whatever ancestors are missing, unless a second check of it has erred; the snapshot is that tree in any case. |
| Safety.SingleBuilder | base_image_puller/base_image_puller.go:153-161 | Between the second check and the unlock the builder alone holds the lock and every other process is before it; the final name is absent unless a second check of the layer has erred; at the rename the temporary volume holds the finished contents. |
| LayerSteps.LayerKept | base_image_puller/base_image_puller.go:138-298 | Each step of buildLayer, whatever it is answered, re-establishes the invariant and leaves alone what every other process relies on. |
| LayerSteps.StartsFrom | base_image_puller/base_image_puller.go:235-254 | The parent volume that a layer is snapshotted from, if it is there, holds what the parent chain denotes. |
| LayerSteps.FinalizeStep | base_image_puller/base_image_puller.go:287-298 | At the rename to the final name the target is free, for a layer whose checks are trusted, and the step, succeeding or failing, keeps the invariant. |
| LayerSteps.DropFinalStep | base_image_puller/base_image_puller.go:271-275 | Destroying the final name after a failed unpack removes no volume of a layer whose checks are trusted, and keeps the invariant. |
| CleanSteps.CleanKept | groot/cleaner.go:31-71 | Each step of Clean, under the exclusive lock or after it, re-establishes the invariant and leaves alone what every other process relies on. |
| ImageSteps.ImageKept | store/image_cloner/image_cloner.go:61-127 | The steps that make, snapshot, register or clean up an image keep the invariant, failures that skip the cleanup included. |
| ImageSteps.DeleteKept | groot/deleter.go:27-47 | The unlocked steps of Delete keep the invariant. |
| ImageSteps.EdgeKept | groot/creator.go:51-101 | The steps of Create before, at and after the shared lock keep the invariant. |
| ImageSteps.CrashKept | store/locksmith/filesystem.go:47-68 | A process that dies anywhere, dropping its flocks, keeps the invariant. |
| ImageSteps.SpawnKept | commands/create.go:181-205 | A new process of any kind keeps the invariant. |
| Invariant.Stable | commands/create.go:138-139 | What a process knows at its program point survives any step of the others that respects the locks it holds. |
| Liveness.WaitingDescends | base_image_puller/base_image_puller.go:153-168 | A process waits only for processes whose own wait, if any, is for a strictly shallower layer; waiters for the global lock wait only for processes under it. |
| Liveness.NoWaitingCycle | groot/creator.go:93-101 | In every reachable state the wait-for graph has no cycle, whatever layers the images share. |
| Liveness.Progress | groot/cleaner.go:52-68 | Following who waits for whom from any process leads along a chain of waiting to one whose next call can succeed now. |
| Liveness.StepShortens | base_image_puller/base_image_puller.go:138-182 | Every step, however it is answered, brings its process strictly closer to its end, so no process runs for ever. |
| Liveness.Drains | groot/creator.go:51-130 | From every state satisfying the invariant the processes there are can all run to their ends with every call succeeding and no crash. |
| Outcomes.SuccessfulCallsSuffice | groot/creator.go:51-130 | No interference fails a process: a Create whose ID is free and whose layers can be applied, or a Delete whose image is there, ends with the image registered, or with neither image nor record, as long as its own calls succeed, whatever the others do meanwhile short of a wrong second check of one of its layers. |
| Outcomes.LayerFares | base_image_puller/base_image_puller.go:138-298 | A step of buildLayer whose call succeeds never takes a failure branch, in any state the invariant allows, provided all layers of the image can be applied and their checks are trusted. |
| LayerProgress.StaysGood | base_image_puller/base_image_puller.go:138-298 | The same for one layer: it needs only that this layer can be applied and that the checks of the one below are trusted. |
| Outcomes.OthersHarmless | groot/deleter.go:34-44 | No step, arrival or crash of another process takes a process off its way to success. |
| Outcomes.LocksEndWithTheirProcess | store/locksmith/filesystem.go:47-68 | Whoever has ended or crashed holds no lock; a store without processes is unlocked. |
| Leftovers.FailedCreateLeavesIff | store/image_cloner/image_cloner.go:61-127 | A Create that found its ID free, did not crash and ended unregistered leaves the image exactly when its ownership or volume-source calls failed, or its cleanup failed once the directory was made; after the former the record is what it was at the start. |
| Leftovers.StuckCreateAbandonsIff | store/image_cloner/image_cloner.go:108-124 | The image left by failed ownership or volume-source calls is without a complete record exactly when no complete record of its ID was there at the start. |
| Leftovers.AbandonedBlocksCleans | store/garbage_collector/gc.go:151-158 | An image without a complete record, on which nobody works, stays as it is until a Delete of it starts, and until then every clean has nothing to mark, over whole runs. |
| Leftovers.CreateTraced | groot/creator.go:93-130 | At every moment of a Create that found its ID free, whether the image exists follows from which of its calls have succeeded or failed. |
| LeftoverSchedules.LeftoverWithoutRecord | store/image_cloner/image_cloner.go:108-115 | A concrete run that ends with nobody at work and an image that has no record. |
| LeftoverSchedules.LeftoverWithStaleRecord | groot/deleter.go:34-44 | A concrete run that ends with an unregistered image and the complete record of its deleted predecessor. |
| SoloClean.SoloCleanIsClean | groot/cleaner.go:52-70 | The protocol's clean, alone and from any state, does to volumes and metadata exactly what the collector's Clean is proved to do, whatever order directories are listed in: a Clean keeps what it was told to, and the clean inside a Create keeps the layers of its image and goes on to the shared lock. |
| Courses.CleansIffAsked | groot/creator.go:87-93 | A Create that has come as far as the shared lock has begun a clean on the way exactly if it was asked to, and otherwise is never cleaning. |
| SoloPull.SoloPullIsPull | base_image_puller/base_image_puller.go:138-182 | The protocol's pull, alone and with all calls succeeding, adds exactly the volumes and metadata that the puller's BuildLayer is proved to add. |
| Metadata.EventMeta | store/filesystems/btrfs/driver.go:238-249 | Every event that does not rebuild this layer while it is condemned keeps metadata beside its volume, once that is finished or about to be, and keeps it uncondemned. |
| Metadata.MetadataAgrees | base_image_puller/base_image_puller.go:287-298 | In a run where a layer is never rebuilt between its mark and its collection and its second checks do not err, its finished volume always has metadata, and it is the byte count of the layer. |
| MetadataLoss.RebuildLosesMetadataIff | store/filesystems/btrfs/driver.go:238-249 | After a layer's metadata has been written anew, some continuation without a further such rebuild loses it while the volume stands, exactly when the old volume was then still there under its condemned name or on a collector's list. |
| MetadataLoss.CondemnedLoses | store/garbage_collector/gc.go:89-113 | The continuation, from every state the invariant allows, whatever other processes are at work. |
| MetadataLoss.UncondemnedKeeps | store/garbage_collector/gc.go:89-113 | If it was not condemned, no continuation without such a rebuild loses the metadata. |
| Schedules.MetadataCanGoMissing | store/filesystems/btrfs/driver.go:243-244 | A concrete run without a failed call that ends with a finished volume whose metadata is gone. |
| Schedules.WrongCheckLosesVolume | base_image_puller/base_image_puller.go:159-161 | A concrete run in which one wrong answer to the second existence check costs a registered image its volume. |
| WrongChecks.WrongCheckLosesIff | base_image_puller/base_image_puller.go:159-161 | From every state the invariant allows, when the second check of a layer whose volume is there has been answered, some continuation without a further wrong check removes the volume while the process is still under the shared lock, exactly when the answer was wrong. |
| WrongChecks.WrongAnswerLoses | base_image_puller/base_image_puller.go:271-275 | The continuation: the layers below are built if they are missing, the unpack fails, and its cleanup destroys the final name. |
| WrongChecks.RightAnswerKeeps | base_image_puller/base_image_puller.go:159-161 | After a right answer no such continuation removes the volume. |
| CrowdedIds.RaceLosesImage | store/image_cloner/image_cloner.go:70-92 | With a second Create of the same ID let in, a run in which the loser of the race removes the image the other has registered. |
| CrowdedIds.LateDeregisterDropsRecord | groot/deleter.go:34-44 | With a Create let in between the two steps of a Delete of the same ID, a run in which the Delete drops the record of the new image. |
| CrowdedIds.UnnoticedFailureAbandons | store/image_cloner/image_cloner.go:158-169 | If the closing stat of a Destroy errs while the directory is still there, the Delete goes on to leave a listed image without a record. |
| Puller.BaseImagePuller.BuildLayer | base_image_puller/base_image_puller.go:138-182 | Alone, it builds exactly the missing layers: locks from the top down, volumes finished from the bottom up, all locks released, contents and metadata right; it fails exactly when some layer cannot be prepared or unpacked, and even then keeps every volume. |
| Puller.BaseImagePuller.BuildUncached | base_image_puller/base_image_puller.go:153-166 | The part under the layer's lock: second check, parents, then this layer. |
| Puller.BaseImagePuller.Pull | base_image_puller/base_image_puller.go:94-104 | Over quota it does nothing; otherwise the whole image is there afterwards or some layer cannot be prepared or unpacked; no lock is left. |
| Puller.BaseImagePuller.QuotaExceeded | base_image_puller/base_image_puller.go:106-123 | Exactly when a limit is set, the base image counts, and the int64 sum of all layer sizes is over it. |
| Puller.BaseImagePuller.LayersSizeOf | base_image_puller/base_image_puller.go:300-306 | The accumulating loop yields the sum of the layer sizes wrapped to an int64, hence the true sum when it fits. |
| Puller.BaseImagePuller.CreateTemporaryVolume | base_image_puller/base_image_puller.go:235-254 | A fresh temporary volume: the parent's contents, or an empty volume's, node for node, but that the root belongs to the configured owner if that is not root. |
| Contents.ChownRootGives | base_image_puller/base_image_puller.go:246-251 | Giving a tree to the configured owner changes the uid and gid of its root to that owner's if either is not zero, and nothing else. |
| Puller.LayersSizeCounts | base_image_puller/base_image_puller.go:300-306 | The sum of the layer sizes counts each layer once. |
| Puller.BaseImagePuller.PrepareTemporary | base_image_puller/base_image_puller.go:259-268 | The base-directory step yields the prepared tree or fails, leaving the temporary volume in whatever state; only that volume changes. |
| Puller.BaseImagePuller.FillTemporary | base_image_puller/base_image_puller.go:270-285 | The temporary volume ends up with what the chain denotes, and the size is the unpacker's; a failed unpack costs the final name's metadata. |
| Puller.BaseImagePuller.UnpackLayer | base_image_puller/base_image_puller.go:209-233 | One finished volume and its metadata more, or one abandoned temporary volume more, and nothing else. |
| Puller.MissingIsAboveHighestCached | base_image_puller/base_image_puller.go:149-168 | What a pull builds is exactly the layers above the highest one cached. |
| GarbageCollector.Collector.UnusedVolumes | store/garbage_collector/gc.go:134-178 | The uncondemned volumes that no image's record and no preserved chain names; an error exactly when some image has no readable record. |
| GarbageCollector.Collector.MarkUnused | store/garbage_collector/gc.go:46-79 | Each of them moves under its condemned name with its contents, except where that name is taken; missing ones are counted as failures; metadata is untouched. |
| GarbageCollector.Collector.CollectVolumes | store/garbage_collector/gc.go:89-132 | Exactly the condemned volumes go, and with them the metadata they share with their live names. |
| GarbageCollector.Collector.Clean | groot/cleaner.go:31-71 | When it does nothing and when that is an error; otherwise exactly which volumes and which metadata files remain. |
| GarbageCollector.TwoCleans | groot/cleaner.go:52-70 | A second clean leaves exactly the volumes in use, unchanged. |
| GarbageCollector.ThirdCleanIsIdentity | groot/cleaner.go:52-70 | Every clean after the second changes nothing. |
| GarbageCollector.OneCleanSufficesIff | store/filesystems/btrfs/driver.go:114-127 | One clean is enough exactly when no unused volume found its condemned name already taken. |
| Drivers.Driver.VolumePath | store/filesystems/btrfs/driver.go:82-90 | Tells whether the volume exists. |
| Drivers.Driver.CreateVolume | store/filesystems/btrfs/driver.go:92-112 | An empty volume, unless the name is taken, or a snapshot of the parent, unless there is no parent. |
| Drivers.Driver.MoveVolume | store/filesystems/btrfs/driver.go:114-127 | Renames; an existing target counts as success and nothing moves. |
| Drivers.Driver.DestroyVolume | store/filesystems/btrfs/driver.go:238-249 | Removes the volume, and the metadata file its live and condemned names share even if there is no volume. |
| Drivers.Driver.Volumes | store/filesystems/btrfs/driver.go:213-228 | Lists every volume once. |
| LayerSpec.UnpackIsOverlayIff | base_image_puller/unpacker/tar.go:153-185 | For the entries as the loop reads them: a successful unpack leaves "lower tree minus whiteouts and opaque contents, overridden by the layer's entries" exactly when no marker comes too late and no directory entry has the last word over something else. |
| LayerSpec.Settled | base_image_puller/unpacker/tar.go:153-185 | For every stream that unpacks, what the loop leaves at every path. |
| LayerSpec.OverlayUnique | base_image_puller/unpacker/tar.go:153-185 | There is at most one such overlay, so it does not depend on the order of entries. |
| LayerSpec.MarkersFirstIsInTime | base_image_puller/unpacker/tar.go:164-177 | Markers that stand before the entries they would erase never come too late. |
| LayerSpec.UnpackWellFormed | base_image_puller/unpacker/tar.go:137-190 | Unpacking keeps every node inside a directory and returns the bytes of the regular files in the stream. |
| UnpackConditions.UnpacksIff | base_image_puller/unpacker/tar.go:153-185 | Exactly which streams unpack: those where no entry goes through a symbolic link and, when its turn comes, a directory or a file stands in a directory or at the root, a file meets no directory, a symbolic link no directory with children, an opaque marker a directory; a whiteout always passes. What is met is told from the lower tree and the entries before. |
| UnpackConditions.FailsIff | base_image_puller/unpacker/tar.go:153-185 | A stream fails exactly when the first entry that does not pass is within the rules and breaks one of these conditions. |
| UnpackConditions.DirectoryAgain | base_image_puller/unpacker/tar.go:222-254 | A directory entry for a directory that is there succeeds, and changes its attributes to the header's and nothing else. |
| UnpackConditions.FileAgain | base_image_puller/unpacker/tar.go:287-328 | A file entry for a file that is there succeeds and replaces it. |
| UnpackConditions.WhiteoutOfNothing | base_image_puller/unpacker/tar.go:97-104 | A whiteout of what is not there succeeds and changes nothing. |
| UnpackConditions.EntryLands | base_image_puller/unpacker/tar.go:162-184 | An unmarked entry that nothing later in its layer replaces or erases is in the tree as its header says: kind, data or link target, mode, and owner, the uid translated by the uid mappings and the gid by the gid mappings. |
| UnpackConditions.Untraced | base_image_puller/unpacker/tar.go:192-220 | Unmarked entries that are no directory, file or link, devices among them, leave no trace. |
| UnpackConditions.BytesAdd | base_image_puller/unpacker/tar.go:137-190 | The size reported is the sum of the lengths of the regular files, entry by entry. |
| Markers.ClassifyAgreesIff | base_image_puller/unpacker/tar.go:164-177 | Exactly which names the substring tests read as the specification does. |
| Markers.JoinedContains | base_image_puller/unpacker/tar.go:164-172 | The tests for the markers, made component by component, are the substring tests on the whole path. |
| Markers.StripIsReplace | base_image_puller/unpacker/tar.go:97-104 | Stripping the marker from the components is replacing its first occurrence in the whole path. |
| Markers.UnpackRefinesOci | base_image_puller/unpacker/tar.go:153-185 | End to end over headers: a layer whose names the code reads as the specification does, and that unpacks, leaves the specification's overlay exactly when no marker comes too late and no directory entry has the last word over something else. |
| Unpacker.TarUnpacker.Unpack | base_image_puller/unpacker/tar.go:137-190 | The in-place loop yields the outcome of applying the entries in order, stopping at the first that fails. |
| Unpacker.TarUnpacker.UnpackEntry | base_image_puller/unpacker/tar.go:162-184 | One entry has the effect its classification says. |
| Unpacker.TarUnpacker.RemoveWhiteout | base_image_puller/unpacker/tar.go:97-104 | Removes the target and everything below it, and succeeds when there is none. |
| Unpacker.TarUnpacker.CleanWhiteoutDir | base_image_puller/unpacker/tar.go:330-343 | Removing what the listing names, child by child, empties the directory and touches nothing else. |
| Unpacker.TarUnpacker.CreateDirectory | base_image_puller/unpacker/tar.go:222-254 | Creates the directory or re-attributes what is there. |
| Unpacker.TarUnpacker.CreateSymlink | base_image_puller/unpacker/tar.go:256-281 | Replaces whatever is there except a directory with children. |
| Unpacker.TarUnpacker.CreateRegularFile | base_image_puller/unpacker/tar.go:287-328 | Creates or truncates and writes the file, refuses a directory, returns the bytes written. |
| Unpacker.TarUnpacker.StopsAt | base_image_puller/unpacker/tar.go:153-185 | The first entry that fails decides the whole unpack. |
| Stacks.DenotesItsStack | base_image_puller/base_image_puller.go:209-233 | In a store whose calls follow the tree rules where they reach, every chain within their reach denotes what applying them layer by layer yields, a proper tree, and the reported size is the bytes of the layer's own regular files. |
| Stacks.LayerIsOverlay | base_image_puller/base_image_puller.go:138-182 | There, what a chain denotes is the specification's overlay of its last layer on what lies below, under the same exact condition. |
| Stacks.HeaderLands | base_image_puller/base_image_puller.go:256-285 | There, what an unmarked header of the layer says is what the volume holds, its owner translated by the store's own mappings. |
| Stacks.RootOwned | base_image_puller/base_image_puller.go:246-251 | There, if the layer's stream does not name the root, the volume's root belongs to the configured owner, unless that is root. |
| Stacks.SameAnnotationsSameContents | base_image_puller/base_image_puller.go:224-230 | Two users of a store who annotate every prefix of a chain alike mean the same volume by it. |
| Stacks.AnnotationChangesContents | base_image_puller/base_image_puller.go:259-268 | One chain of two layers, annotated by one user and not by the other, stands for two different volumes, both well made. |
| BaseDirectory.ChildVolume.EnsureBaseDirectoryExists | base_image_puller/base_image_puller.go:308-340 | The recursion on the child's tree terminates with the result of the specification `Ensure`, and leaves the tree `Attempted`, on failure too. |
| BaseDirectory.EnsureAddsOnlyAncestors | base_image_puller/base_image_puller.go:308-340 | On success the base directory and its ancestors exist, new ones have the parent layer's attributes, and everything the child had is unchanged. |
| BaseDirectory.AttemptAddsOnlyAncestors | base_image_puller/base_image_puller.go:308-340 | Success or not, everything the child had is unchanged and whatever is new copies an ancestor of the base directory. |
| BaseDirectory.EnsureSucceedsIff | base_image_puller/base_image_puller.go:317-337 | With no symbolic link about, it succeeds exactly when each ancestor is in the child or can be copied from the parent. |
| BaseDirectory.SnapshotUnchanged | base_image_puller/base_image_puller.go:308-340 | A child that is a snapshot of that parent is never changed. |
| IdMappings.TranslationAgreesIff | base_image_puller/unpacker/tar.go:345-361 | For every mapped ID but root, exactly when translation follows the kernel's interval map (user_namespaces(7)): ranges that start at 1, and single entries that map an ID to itself. |
| IdMappings.RootAgreesIff | base_image_puller/unpacker/tar.go:345-371 | For root, exactly when translation follows the kernel's map: the first mapping of size 1 is the one that covers root, or there is none and root is mapped to itself. |
| IdMappings.RootAndRangeAgrees | base_image_puller/unpacker/tar.go:345-371 | For root on its own plus one range from 1 up, translation is the kernel's map on all mapped IDs. |
| IdMappings.RootAndRangeInjectiveIff | base_image_puller/unpacker/tar.go:345-371 | There it is injective exactly when root's host ID lies outside the host range. |
| ChainIds.CreateLayerInfos | fetcher/layer_fetcher/layer_fetcher.go:90-115 | Each info describes its layer; its diff ID is the part of the digest after the colon; the first has that as chain ID and no parent, every other has its predecessor's chain ID as parent and as chain ID the hash of that, a blank, and its own diff ID. |
| ChainIds.ChainIDExtendsPrefix | fetcher/layer_fetcher/layer_fetcher.go:117-129 | The chain ID computed from a parent's is that of the prefix one layer longer: of a digest `alg:hex`, the hex for the first layer, and the hash of the parent's ID, a blank and the hex for every other. |
| ChainIds.ChainIdsIdentifyDigests | fetcher/layer_fetcher/layer_fetcher.go:90-129 | Across the layer infos of any two images whose digests are of one algorithm, two chain IDs are equal exactly when the digests up to them are. |
| ChainIds.RenderInjective | fetcher/layer_fetcher/layer_fetcher.go:117-129 | Two chain IDs print alike only when they are the same chain. |
| ChainIds.ChainIdsIdentifyPrefixes | fetcher/layer_fetcher/layer_fetcher.go:90-129 | Across any two images, chain IDs are equal exactly when the diff-ID prefixes are. |
| ChainIds.ImagesAreChains | fetcher/layer_fetcher/layer_fetcher.go:90-115 | The chain IDs of an image are linked parent to child and all distinct, so no pull ever waits for a layer lock of its own. |
| Names.GcPrefixSeparates | store/garbage_collector/gc.go:124-128 | The `gc.` test holds of exactly the condemned volumes. |
| Names.NamesDistinct | base_image_puller/base_image_puller.go:236-236 | Finished, temporary and condemned volumes never share a name. |
| Names.MetaSharedIff | store/filesystems/common.go:47-50 | A condemned volume keeps the metadata path of its own name exactly when that name is free of the marker. |
| Names.MarkedPathLandsIff | store/garbage_collector/gc.go:61-63 | Replacing the first occurrence of the ID in the whole path lands beside the volume exactly when the ID does not occur earlier in the path. |
| Names.FinalPathLandsIff | base_image_puller/base_image_puller.go:292-293 | finalizeVolume's replacement lands beside the temporary volume exactly when the temporary name does not occur earlier in the path. |
| Namespacer.StoreNamespacer.ApplyMappings | groot/store_namespacer.go:34-45 | The first call writes the canonical form; a later one succeeds exactly when its lists have that same canonical form, and never changes the file. |
| Namespacer.StoreNamespacer.ValidateNamespace | groot/store_namespacer.go:91-111 | Succeeds exactly when both lists have the canonical form on file. |
| Namespacer.StoreNamespacer.NormalizeMappings | groot/store_namespacer.go:117-125 | A sorted permutation of the printed mappings. |
| Namespacer.StoreNamespacer.ParseIDMappings | groot/store_namespacer.go:127-140 | Parses every string, or fails exactly when one does not parse. |
| Namespacer.StoreNamespacer.Read | groot/store_namespacer.go:47-71 | The parsed lists in file order, or an error when there is no file or it does not parse. |
| Namespacer.CanonicalIff | groot/store_namespacer.go:117-125 | Two lists of mappings share a canonical form exactly when they are permutations of each other. |
| Namespacer.PrintParse | groot/store_namespacer.go:127-140 | Parsing a printed mapping gives it back, negative numbers included. |
| Namespacer.PrintedFields | groot/store_namespacer.go:117-125 | Split at its colons, a printed mapping is its namespace ID, its host ID and its size. |
| Namespacer.ParsedIff | groot/store_namespacer.go:130-137 | Exactly which strings parse, and as what: three scans, with a colon after the first and after the second, and then anything. |
| Numbers.ScanIff | groot/store_namespacer.go:132-132 | One `%d` reads a number exactly when the input is blanks, perhaps a sign, digits and a rest, and the number fits an int; it gives that number and leaves the rest. |
| Numbers.DecimalPlaces | groot/store_namespacer.go:120-120 | `%d` prints in the place of each power of ten the digit of that place. |
| Namespacer.ReadAfterWrite | groot/store_namespacer.go:47-89 | Reading what was written succeeds and yields a permutation of it, in the order of the printed strings. |
| StringOrder.SortStrings | groot/store_namespacer.go:123-123 | A sorted permutation. |
| StringOrder.SortedUnique | groot/store_namespacer.go:101-108 | Two sorted lists with the same elements are the same list. |
| StringOrder.AtMostIff | groot/store_namespacer.go:123-123 | The order: a prefix comes first, and otherwise the first byte in which two strings differ decides. |
| Lister.ExtractPaths | store/filesystems/btrfs/drax/lister/btrfs.go:65-95 | Exactly the listed subvolumes whose path has the image path as a string prefix, in the order of the lines, or an error when a line has not nine fields. |
| Lister.List | store/filesystems/btrfs/drax/lister/btrfs.go:31-63 | A permutation in descending order of the selection made with the mount point that is found, or an error when none is found or a line is malformed. |
| Lister.SelectedIff | store/filesystems/btrfs/drax/lister/btrfs.go:79-87 | What is in the selection: the paths of the lines that have the prefix. |
| Lister.SelectedDistinct | store/filesystems/btrfs/drax/lister/btrfs.go:84-87 | A listing without repetitions gives a selection without repetitions. |
| Lister.LineReads | store/filesystems/btrfs/drax/lister/btrfs.go:79-84 | A line as btrfs prints it, `ID .. gen .. top level .. path` and a path, has its nine fields exactly when there is no blank in the path, and then the path read from it is that one, below the mount point. |
| Lister.ListingSelects | store/filesystems/btrfs/drax/lister/btrfs.go:65-95 | Of the listing of a set of subvolumes the lister selects exactly the paths below the mount point that have the prefix; it fails exactly when some path in the listing has a blank. |
| Lister.PathComponents | store/filesystems/btrfs/drax/lister/btrfs.go:97-112 | Paths, here given by their components, split at their slashes into those components. |
| Lister.NestedFirst | store/filesystems/btrfs/drax/lister/btrfs.go:61-61 | In that order everything nested in a subvolume comes before it. |
| Lister.FindMountPoint | store/filesystems/btrfs/drax/lister/btrfs.go:97-112 | The nearest ancestor whose text occurs in the mount table, never the root. |
| Lister.MountPointFoundIff | store/filesystems/btrfs/drax/lister/btrfs.go:97-112 | What it finds is the mount point exactly when no ancestor between that and the path happens to occur in the table's text. |
| Lister.PrefixMeansInsideIff | store/filesystems/btrfs/drax/lister/btrfs.go:85-87 | The bare-prefix filter selects exactly the image and its inside when no other path extends the image path without a slash. |
| Lister.OthersSparedIff | store/filesystems/btrfs/drax/lister/btrfs.go:85-87 | Destroying a nested image spares all the other subvolumes under exactly that condition. |
| Lister.Subvolumes.DestroyAll | store/filesystems/btrfs/driver.go:272-276 | The loop removes only what it is given; given the lister's order and all that is nested, it never meets a subvolume that still contains one, and removes them all. |
| Lister.Subvolumes.DestroyImage | store/filesystems/btrfs/driver.go:251-286 | The snapshot goes. When something is nested in it, the mount point is found and the lines are btrfs's listing, every subvolume goes whose path has the image path as a prefix, unless a subvolume anywhere has a blank in its path, which is an error, and nothing goes. A missing snapshot is an error and nothing goes; and never does anything go whose path has not the image path as a prefix. |
| Measurer.UsedSurvivesWrapping | store/measurer_linux.go:57-69 | Even when both products wrap modulo 2^64, the used bytes are right exactly when they fit an int64. |
| Measurer.TotalSurvivesIff | store/measurer_linux.go:57-69 | The total is right exactly when it fits an int64. |
| Measurer.CacheUsage | store/measurer_linux.go:43-55 | The sum of the sizes on record, unreadable ones left out, in wrapping int64 arithmetic; it is the true sum exactly when that fits. |
| Measurer.RecordedSumCounts | store/measurer_linux.go:43-55 | Every volume listed counts once with the bytes recorded for its ID; unreadable records count nothing. |

## Left out

- The command line, configuration, error texts, logging and metrics.
- The network, registries, gzip, retry loops and SHA-256 itself: blobs are given entry sequences, hashing is idealised.
- The download goroutine: its result is one nondeterministic answer, so the order of download and parent build is not modelled.
- Executing btrfs, drax, mkfs, mount and the user-namespace helpers: they are atomic volume operations that may fail.
- Children that outlive a crashed parent: an unpack child could only go on writing into a temporary volume nobody uses, but in rootless mode a `destroy-volume` child (store/filesystems/namespaced/driver.go) could still remove a volume after its parent's locks are gone.
- `DeleteStore`, which takes only the shared lock and removes everything by design, and `InitStore`.
- Unpacker.TarUnpacker.Unpack: gives hard links, paths through symbolic links, and whiteouts whose stripped path is empty or has dot components the outcome `Outside`; the protocol covers such layers, but what their trees look like is not described, nor what becomes of a layer above one.
- Unpacker.TarUnpacker.CreateDirectory: an existing symbolic link at the path is `Outside`, since the kernel would follow it.
- Unpacker.TarUnpacker.CreateRegularFile: an existing symbolic link at the path is `Outside`, since the kernel would follow it.
- Unpacking without root (no chown), modification times, umask, permission errors, and tar and JSON byte formats.
- The mode bits that `CreateImage` and `setOwnership` put on the snapshot's root, and disk quotas.
- A base-directory lookup for a first layer: the code would look in the volumes directory itself; the protocol allows any outcome that depends on the layer alone, and the tree rules take the place looked in to be empty. A relative base directory, on which the code recurses for ever, is not modelled.
- Lock-file and dependency-file names: locks and records are keyed by chain ID and image ID directly.
- Drivers.Driver.CreateVolume: asks that the name of a snapshot be free, for btrfs would otherwise put the snapshot inside the volume of that name; the temporary names it is used for carry a fresh stamp.
- `Create` and `Delete` as solo classes: their order of effects, failure paths and cleanup are steps of the protocol instead, on values rather than on fields.
- The mount table's format, white space outside ASCII in `Sscanf` and `TrimSpace`, subvolume paths that begin or end in white space, and the cleaning of paths by `filepath.Join`.
- Overflow in the additions of `translateID`.
- Lister.Subvolumes.DestroyImage: models the subvolumes only; the plain directory around them goes with `RemoveAll`, whose failure the protocol's `DropImage` and `DestroyImage` steps cover.
- Puller.BaseImagePuller.BuildLayer: states the run in which no driver call fails, as do the methods it is made of; failing calls are in the protocol's `StepLayer`, and `SoloPull.SoloPullIsPull` ties the two together.
- Puller.BaseImagePuller.CreateTemporaryVolume: states the case in which the btrfs and chown calls succeed; the others are in the protocol's `StepLayer`.
- Fairness among waiters: a Clean waiting for the exclusive lock can be overtaken by arriving Creates for as long as they keep arriving.
- GarbageCollector.Collector.Clean: states the run in which no driver call fails; failing calls are in the protocol's `StepClean`, and `SoloClean.SoloCleanIsClean` ties the two together.
