# xv6, modelled and verified in Dafny

A model of the kernel xv6, of its file system builder and of two of its user programs, together with
proofs of what the code relies on but no single function of it states.

- **Files on a block disk** (`FsBytes`, `FsDisk`, `FsFiles`, `FsTrunc`, `FsKernel`). `FsKernel.FileSystem` runs
  `balloc`, `bmap`, `readi`, `writei`, `itrunc`, the inode cache and `ialloc` on a disk made of 512-byte blocks.
  `Holds(g, disk, ino, files)` is the refinement relation: blocks, bitmap, inodes and indirect blocks together mean one
  byte sequence per inode. It carries the ownership invariant (no block has two owners, every owned block is marked),
  the absence of holes, and zeroes in every free block and behind the end of every file.
- **Names** (`FsDirs`, `FsPaths`, `FsNames`). Directories as finite maps, paths as lists of names, and `dirlookup`,
  `dirlink`, `skipelem` and `namei` run on the layer below.
- **System calls on names** (`FsTree`, `FsCalls`). `link`, `unlink` and `create`, one at a time, on the bytes of the disk.
  `TreeInv(ino, files)` says that names are unique, lead to inodes in use, and are covered by nlink; each call keeps
  it, and afterwards `namei` of the path finds what it should, or nothing.
- **mkfs** (`Mkfs`) builds an image on which the kernel's invariants hold, and **a kernel that starts on it** (`Boot`) finds every
  file under its name and reads the bytes that were put there.
- **Link counts** (`Links`, `LinksRace`): `link`, `unlink`, `create`, path walks, `ialloc` and `iput`, interleaved at every
  write to an inode, in the cache or on disk, to a directory or to a lock.
- **Buffer cache and disk queue** (`Bio`, `BioLists`), **processes and CPUs** (`Proc`, `ProcTable`),
  **sleep and wakeup** (`Sleep`, `SleepLock`), **spin locks** (`Spinlock`) and **pipes** (`Pipe`): state machines with theorems
  about every point of every run, and the pointer and table loops behind their steps.
- **Memory**: the page allocator (`Kalloc`), who holds which page through fork, exec, sbrk, wait and pipes (`Pages`),
  and `malloc` and `free` of user programs (`Umalloc`).
- **The shell's parser** (`Shell`), with the grammar it accepts: exactly the lines of that grammar, however they are spaced, and
  each to its meaning.

Where the source changes things in place, the model does too: a class with the source's fields, and methods proved
against functions of the old state. Protocols are a state, a relation `Next` with one case per step, an invariant `Inv`,
a lemma `NextKeeps`, and `RunInv` by induction over the run.

Some properties one would expect are false of the code. For each, the condition under which it does hold is proved in
both directions:

- `iput` stores type 0 before it drops its reference, so `ialloc` can take the inode and its `iget` find it in the cache, with
  type 0. `create` then stores type 0 again and names a free inode (`LinksRace.NamesFree`). Link counts and types are
  safe in a run if and only if no `iget` of `ialloc` finds its inode in the cache (`Links.LinksSafeExactly`).
- `pipeclose` looks at both ends after it has released the pipe's lock, so both closers may free the page
  (`Pages.DoubleKfreePanics`, `Pages.DoubleKfreeShares`). Pages are conserved in a run if and only if no page of a pipe is
  given back by both (`Pages.ConservedExactly`); in terms of what pipeclose looks at, `Pages.ConservedByTests`.
- A `fork` that finds no memory frees its entry of the process table before it clears the entry's parent. Another `fork` may
  have filled the entry by then, and its child is left without a parent (`Proc.OrphanRun`). Every process has a living
  parent throughout a run, and nobody waits without children, if and only if that does not happen (`Proc.FamiliesExactly`).
- When `iput` frees a directory, the link of its parent for ".." is not taken back, nor are those of files that were
  put into it after it was unlinked (`Links.LinksLost`, `FsTree.MkdirThenRmdir`). Otherwise link counts are exact at every
  point (`Links.LinkCountsExact`); `unlink` keeps them exact if and only if it does not free a directory (`FsTree.UnlinkExactly`).
- `kill(0)` marks the first free entry of the process table, and the next process to get it is born killed
  (`Proc.BornKilled`). An entry is marked killed if and only if `kill` has found it since it last exited (`Proc.KilledExactly`).
- `balloc` stops at the end of a bitmap block, not at the end of the disk: with every block of the disk in use it returns
  the first block past the end (`FsKernel.FileSystem.Balloc`, and `Mkfs.FullDiskRunsOver` for the disk that mkfs makes).
- `itrunc` never frees the indirect block: the block stays marked and nobody owns it (`FsTrunc.TruncLosesIndirect`).
- `writei` would leave a hole if its offset were a whole block past the end (`FsFiles.GapIsHole`). No caller does that:
  offsets start at 0 and move by what was read or written.
- `mkfs` rounds the size of a root directory that exactly fills its blocks up to an unmapped block
  (`Mkfs.RoundUpIsOk`), and accepts names that agree in their first 14 bytes (`Mkfs.RootNamesOnce`).
- A `pipewrite` whose process is killed, or that has no reader left, returns -1 from a full pipe without waking the
  readers; one that sleeps then goes on sleeping beside 512 bytes (`Pipe.ReadersServedExactly`, and such a run, with the
  kill in it, in `Pipe.LostWakeup`).
- `kfree` tests only the first byte of a block: a block that is partly free spoils the order of the list
  (`Kalloc.InsertKeepsExactly`).
- `malloc` of a size within 7 bytes of 2^32 wraps around and returns a block that is too small
  (`Umalloc.RoomExactly`).

## Model

| member | source | states |
|---|---|---|
| `Kalloc.InsertIsUnion` | xv6/kalloc.c:44-84 | Freeing adds exactly the freed bytes to the free bytes, whatever the list |
| `Kalloc.InsertKeepsWellFormed` | xv6/kalloc.c:44-84 | Freeing memory that is not free keeps the list sorted, disjoint and fully merged |
| `Kalloc.InsertBreaks` | xv6/kalloc.c:58-80 | Freeing a block whose first byte is in use and some later byte is not always leaves a list out of order |
| `Kalloc.FreeTwoBreaks` | xv6/kalloc.c:58-80 | Such a list: two pages freed of which the second is free |
| `Kalloc.InsertKeepsExactly` | xv6/kalloc.c:58-80 | If kfree does not panic, the list stays well-formed if and only if no byte of the block was free |
| `Kalloc.TakeRemoves` | xv6/kalloc.c:89-116 | Allocation takes away exactly the bytes it returns, all of which were free |
| `Kalloc.TakeKeepsWellFormed` | xv6/kalloc.c:89-116 | Allocation keeps the list sorted, disjoint and fully merged |
| `Kalloc.FailsExactly` | xv6/kalloc.c:89-116 | kalloc(n) fails if and only if no n contiguous bytes are free, in any run or across runs |
| `Kalloc.Canonical` | xv6/kalloc.c:44-116 | The free bytes determine the list: two well-formed lists of the same bytes are equal |
| `Kalloc.AllocThenFree` | xv6/kalloc.c:44-116 | Giving back what kalloc returned restores the very same list |
| `Kalloc.FreesCommute` | xv6/kalloc.c:44-84 | The order in which two disjoint blocks are freed does not matter |
| `Kalloc.Allocator.constructor` | xv6/kalloc.c:19 | The list is empty before kinit |
| `Kalloc.Allocator.Kinit` | xv6/kalloc.c:25-38 | 256 pages from the first page boundary past `end` on are free, and nothing else |
| `Kalloc.Allocator.Kfree` | xv6/kalloc.c:44-84 | For any address and length: panics exactly on a bad length or a block whose first byte is free; otherwise the free bytes grow by the block, and the list stays well-formed exactly when none of them was free |
| `Kalloc.Allocator.KfreeWalk` | xv6/kalloc.c:55-84 | The loop with its four ways to merge computes the insertion |
| `Kalloc.KfreeCases` | xv6/kalloc.c:58-76 | What each branch of the loop does at one run is the insertion, whatever the block, and the panic branch is taken only for a free first byte |
| `Kalloc.Allocator.Kalloc` | xv6/kalloc.c:89-116 | Panics exactly on a bad length; returns 0 exactly when no contiguous stretch is free; otherwise removes exactly the returned bytes |
| `Kalloc.Allocator.KallocWalk` | xv6/kalloc.c:98-115 | The loop takes from the end of the first run that is long enough |
| `FsDisk.InodeRoundTrip` | xv6/fs.h:23-31 | Decoding an encoded inode gives it back, all fields and addresses |
| `FsDisk.PutInodeReads` | xv6/fs.c:291-307 | Storing an inode changes that inode on disk and no other, even in the same block |
| `FsDisk.MarkReads` | xv6/fs.c:54-98 | Setting or clearing a bitmap bit changes the state of that block and of no other |
| `FsDisk.Regions` | xv6/fs.h:8-47 | Inode blocks, bitmap blocks and data blocks do not overlap |
| `FsFiles.AddPointerKeepsAllocInv` | xv6/fs.c:318-357 | Giving a free block to one pointer of one inode keeps ownership: all pointers distinct, all targets marked, all free blocks zero |
| `FsFiles.BmapDirect` | xv6/fs.c:324-331 | A block put into a direct address is a correct step of bmap: only that pointer changes and no file's bytes do |
| `FsFiles.BmapEntry` | xv6/fs.c:344-353 | The same for an entry of the indirect block |
| `FsFiles.BmapBoth` | xv6/fs.c:334-354 | The same when the indirect block is fresh: it is not zeroed by bmap, and need not be |
| `FsFiles.SetDataKeepsAllocInv` | xv6/fs.c:445-451 | Storing file data moves no pointer of any inode |
| `FsFiles.ChunkBytes` | xv6/fs.c:445-451 | After one turn of writei's loop each byte of the file is the written one, the old one, or zero in a fresh block |
| `FsFiles.GapIsHole` | xv6/fs.c:445-456 | A turn at any offset keeps a file without holes if and only if it starts no later than the block after the last |
| `FsFiles.ChunkZeroTail` | xv6/fs.c:445-456 | The bytes behind the end of the file, in its last block, stay zero |
| `FsFiles.ChunkHolds` | xv6/fs.c:445-456 | One turn changes one file, as a splice of its byte sequence, and leaves every other file alone |
| `FsFiles.FreeBlockKeepsAllocInv` | xv6/fs.c:80-98 | Freeing a block that nobody reaches keeps ownership and zeroes it |
| `FsFiles.PutInodeKeepsFsInv` | xv6/fs.c:291-307 | Writing an inode changes neither block ownership nor the bytes of any file |
| `FsFiles.SameDataSameFiles` | xv6/fs.c:318-357 | Files are determined by their pointers and the blocks these lead to |
| `FsFiles.WrittenTwice` | xv6/fs.c:445-451 | Two adjacent writes are one write of the concatenation |
| `FsTrunc.TruncStarts` | xv6/fs.c:360-387 | The loop invariant of itrunc holds at the start |
| `FsTrunc.TruncFree` | xv6/fs.c:367-380 | Freeing the block at the next pointer keeps that invariant, for direct blocks and for entries |
| `FsTrunc.TruncOrphan` | xv6/fs.c:367-380 | That block is marked, and once forgotten nobody reaches it: bfree does not panic |
| `FsTrunc.TruncIndirect` | xv6/fs.c:374-383 | Forgetting the indirect block keeps the invariant while its entries remain readable |
| `FsTrunc.TruncReadsEntries` | xv6/fs.c:374-376 | Freeing the direct blocks has not changed the indirect block |
| `FsTrunc.TruncEnds` | xv6/fs.c:360-387 | At the end the inode is the empty file and all others are as they were |
| `FsTrunc.TruncLosesIndirect` | xv6/fs.c:374-383 | If every marked data block had an owner before itrunc, it still does if and only if the file fitted its direct blocks |
| `FsTrunc.OneByteOver` | xv6/fs.c:361-390 | A file of 6145 bytes: its indirect block stays marked and unowned |
| `FsTrunc.IndirectLost` | xv6/fs.c:374-383 | The former indirect block is marked and reached by nobody |
| `FsKernel.BitIs` | xv6/fs.c:63-71 | The bit the inner loop of balloc tests and sets is the bit of block b + bi |
| `FsKernel.BfreeBits` | xv6/fs.c:87-95 | The bit bfree tests, after zeroing the block, is the bit of that block, and clearing it frees the block |
| `FsKernel.FileSystem.Balloc` | xv6/fs.c:54-77 | The first unmarked bit, now marked and nothing else changed; it is a block of the disk if and only if some block of the disk was free; panics exactly when the bitmap blocks are full |
| `FsKernel.FileSystem.Bfree` | xv6/fs.c:80-98 | Zeroes and unmarks the block; panics exactly when it was free already |
| `FsKernel.FileSystem.BallocData` | xv6/fs.c:54-77 | A data block that was free and all zero, or all blocks below size are marked |
| `FsKernel.FileSystem.BmapLookup` | xv6/fs.c:318-357 | Without allocation: the block of the file, or -1 exactly when there is none; nothing changes |
| `FsKernel.FileSystem.Bmap` | xv6/fs.c:318-357 | With allocation: the block of the file, fresh and zero if it was missing; ownership kept, no file's bytes changed, the cache coherent |
| `FsKernel.FileSystem.BmapDirectOf` | xv6/fs.c:324-331 | The direct case of the same |
| `FsKernel.FileSystem.BmapIndirect` | xv6/fs.c:334-354 | The indirect case of the same |
| `FsKernel.FileSystem.GiveIndirect` | xv6/fs.c:336-342 | The new indirect block is an empty map although it is not cleared |
| `FsKernel.UnmappedPastEnd` | xv6/fs.c:445-451 | A block that is missing while a file is written lies at or past the old end: writes inside a file never allocate |
| `FsKernel.FileSystem.BmapEntryOf` | xv6/fs.c:344-353 | The entry of the indirect block, filled in if missing |
| `FsKernel.FileSystem.Iupdate` | xv6/fs.c:291-307 | The inode on disk becomes the cached one; files and ownership are untouched |
| `FsKernel.ReadChunk` | xv6/fs.c:419-422 | The bytes copied out of one block are those of the file at that offset |
| `FsKernel.FileSystem.Readi` | xv6/fs.c:401-425 | Returns exactly the bytes from off on, at most n, up to the end; -1 exactly when off is past the end or off + n overflows |
| `FsKernel.FileSystem.ReadBlocks` | xv6/fs.c:418-423 | The loop of readi assembles that stretch of the file |
| `FsKernel.WritingStep` | xv6/fs.c:445-451 | One turn of writei's loop extends the part of the file that is written |
| `FsKernel.WriteGrowth` | xv6/fs.c:453-456 | Past the end: once size and inode are stored, the disk holds the spliced file |
| `FsKernel.WriteNoGrowth` | xv6/fs.c:453-456 | Inside the file no block was allocated and the inode need not be stored |
| `FsKernel.FileSystem.Writei` | xv6/fs.c:428-458 | The file becomes its old bytes with the new ones spliced in at off, cut at the maximal size; every other file, inode and cache slot is unchanged; -1 exactly on overflow; out of blocks only if all are in use and the write passes the end |
| `FsKernel.FileSystem.WriteClipped` | xv6/fs.c:445-458 | The same once n is clipped |
| `FsKernel.FileSystem.WriteBlocks` | xv6/fs.c:445-451 | The loop of writei |
| `FsKernel.FileSystem.WritePart` | xv6/fs.c:446-450 | One turn of it: bmap, then the bytes |
| `FsKernel.FileSystem.Itrunc` | xv6/fs.c:360-387 | The file becomes empty, the others stay; exactly its data blocks become free; bfree's panic is not reached |
| `FsKernel.FileSystem.TruncDirect` | xv6/fs.c:367-372 | The loop over the direct blocks |
| `FsKernel.FileSystem.TruncEntries` | xv6/fs.c:374-383 | The loop over the entries of the indirect block |
| `FsKernel.IputFrees` | xv6/fs.c:240-254 | Freeing an inode on disk and giving up its slot keeps the cache coherent and all files |
| `FsKernel.FileSystem.Iput` | xv6/fs.c:236-255 | Drops a reference; the last one to an inode without links empties and frees it, on disk too, even if it was ahead of the disk; no other file or inode on disk is touched |
| `FsKernel.FileSystem.IputFree` | xv6/fs.c:240-254 | The freeing path of the same |
| `FsKernel.FileSystem.Iget` | xv6/fs.c:146-177 | One slot per inode: the slot there is, or an unused one; panics exactly when there is neither |
| `FsKernel.FileSystem.FindSlot` | xv6/fs.c:154-163 | The scan finds the slot of the inode, and else an unused slot if there is one |
| `FsKernel.FileSystem.Idup` | xv6/fs.c:181-188 | One more reference, nothing else |
| `FsKernel.FileSystem.Ilock` | xv6/fs.c:191-220 | Waits exactly when somebody has the inode locked; otherwise it is locked and equal to the inode on disk; the panic for a missing type is not reached |
| `FsKernel.FileSystem.Iunlock` | xv6/fs.c:223-233 | The lock is given up; the cache stays coherent unless the inode is ahead of the disk, and then an iput that frees it puts that right |
| `FsKernel.FileSystem.SetMeta` | xv6/sysfile.c:235-237 | Setting major, minor and nlink in core changes no file, and the inode is ahead of the disk until iupdate |
| `FsKernel.FileSystem.Ialloc` | xv6/fs.c:266-288 | The first free inode, cleared and typed, its file empty, every file and every other inode on disk unchanged; panics exactly when there is no free inode or no slot |
| `FsKernel.FileSystem.FindFreeInode` | xv6/fs.c:274-286 | The scan finds the first inode without a type |
| `FsDirs.NameEqIsSameName` | xv6/fs.c:462-466 | namecmp is equality of the names up to their NUL |
| `FsDirs.DirBlock` | xv6/fs.c:481-499 | A block of a directory, entry by entry: entries past the end of the directory read as unused |
| `FsDirs.LookupIs` | xv6/fs.c:471-500 | If names occur once, any entry of a name is what lookup finds |
| `FsDirs.LinkAddsName` | xv6/fs.c:503-530 | Storing an entry in an unused place adds one pair to the map and keeps names unique |
| `FsDirs.UnlinkRemovesName` | xv6/sysfile.c:198-200 | Zeroing the entry of a name removes that name from the map and no other |
| `FsDirs.LinkThenUnlink` | xv6/fs.c:503-530 | Unlinking what was linked leaves the names as they were |
| `FsNames.EntryScanned` | xv6/fs.c:483-496 | An entry of a block matches exactly when the directory has that entry and it matches |
| `FsNames.ScanDir` | xv6/fs.c:481-499 | The scan by whole blocks, past the end of the directory, finds what an entry-by-entry scan of the file finds |
| `FsNames.Dirlookup` | xv6/fs.c:471-500 | A reference to the inode the map gives, and its offset; nothing exactly when the name is absent; the panic for want of a slot exactly when the name exists, its inode is not cached and the cache is full |
| `FsNames.Dirlink` | xv6/fs.c:503-530 | Refuses exactly an existing name, with all references, locks and slots as before; otherwise the directory gets the entry in its first unused place, no other file changes, and directories stay sound; panics only where LinkStops says |
| `FsNames.DirlinkAdd` | xv6/fs.c:516-529 | The writing half of dirlink: it stops only if all entries are used and either every block of the disk is or the directory has its maximal size |
| `FsNames.LinkKeepsDirs` | xv6/fs.c:524-527 | A new entry for an inode that is in use and linked, or for the directory itself, keeps every directory sound |
| `FsNames.ScanUnused` | xv6/fs.c:517-522 | The scan finds the first unused entry, or the end |
| `FsNames.Isdirempty` | xv6/sysfile.c:149-162 | True exactly when all entries after the second are unused |
| `FsNames.EmptyHasOnlyDots` | xv6/sysfile.c:149-162 | For a directory that starts with its two dots this is: it has no other name |
| `FsPaths.ComponentsOfRendered` | xv6/fs.c:545-568 | Names joined by any number of slashes come back in order: each in full if it has at most 14 bytes, and otherwise its first 14 |
| `FsPaths.ShortNamesComeBack` | xv6/fs.c:545-568 | If no name is longer than 14 bytes, the components of the path are the very names |
| `FsPaths.LeadingSlashes` | xv6/fs.c:545-568 | Slashes in front do not matter |
| `FsPaths.NextElemIsHead` | xv6/fs.c:532-568 | One call yields the first component and the rest; the rest is empty exactly when that was the last |
| `FsPaths.Skipelem` | xv6/fs.c:545-568 | The two pointer loops compute that call; the name buffer reads as the first 14 bytes of the element, or all of it |
| `FsPaths.ParentIsPrefix` | xv6/fs.c:573-606 | nameiparent is namei of all but the last component, if that is a directory |
| `FsPaths.ParentThenLookup` | xv6/fs.c:573-619 | nameiparent followed by a lookup of the last component is namei |
| `FsPaths.ResolveAppend` | xv6/fs.c:573-606 | Following a path can be cut in two anywhere |
| `FsNames.WantStep` | xv6/fs.c:583-600 | One turn of the loop of _namei is one step of the path's meaning, with its three ways out |
| `FsNames.WalkDown` | xv6/fs.c:594-599 | One level down: the child is referenced before the directory is let go, even if they are the same inode, and even if the directory has been unlinked |
| `FsNames.Namei` | xv6/fs.c:573-606 | A path that begins with a slash is followed from inode 1, whatever the current directory, and any other from the current directory. With any inodes locked and any directories unlinked: the inode the path means, with one new reference and no new lock; nothing exactly when it means none; waits only for an inode on the path that is locked; panics only if an inode on the path is not in the cache and at most one slot was free |
| `FsNames.FewWereFree` | xv6/fs.c:161-175 | A cache that one reference has made full had at most one free slot |
| `FsNames.PathStep` | xv6/fs.c:583-600 | The inode reached after each turn is the one the components so far mean |
| `FsNames.NameiLoop` | xv6/fs.c:583-605 | The loop of the same, started at any inode |
| `FsNames.NameiTurn` | xv6/fs.c:583-600 | One turn of it |
| `FsTree.DirMapIs` | xv6/fs.c:471-500 | The finite map of a directory is what dirlookup computes on its bytes |
| `FsTree.CountedDirsOk` | xv6/fs.c:471-500 | If nlink covers the names, every entry is safe to follow: it names an inode in use that is linked, or the directory itself |
| `FsTree.AddKeeps` | xv6/fs.c:503-530 | Adding a name for an inode with a link to spare keeps the counts, and changes one map by one pair |
| `FsTree.DropKeeps` | xv6/sysfile.c:198-200 | Clearing an entry keeps the counts and leaves the inode with a link to spare |
| `FsTree.AllocKeeps` | xv6/fs.c:266-288 | An inode that comes into use had no names |
| `FsTree.FreeKeeps` | xv6/fs.c:246-248 | Freeing an inode nobody names keeps the counts, although its own entries go with it |
| `FsTree.UnlinkedKeeps` | xv6/sysfile.c:184-206 | Clearing an entry, lowering nlink and perhaps freeing the inode keeps TreeInv, and takes exactly one name away |
| `FsTree.LinkedKeeps` | xv6/sysfile.c:118-136 | Raising nlink and adding an entry keeps TreeInv, and adds exactly one name |
| `FsTree.NewFileKeeps` | xv6/sysfile.c:230-255 | A new inode with its name, and for a directory its dots and the link of the parent, keeps TreeInv |
| `FsTree.LinkSpares` | xv6/sysfile.c:120-140 | link leaves nlink, less the number of names, as it was for every inode |
| `FsTree.CreateSpares` | xv6/sysfile.c:230-253 | So does create, and the new inode has exactly its one name |
| `FsTree.UnlinkSpares` | xv6/sysfile.c:195-206 | So does unlink, except that freeing a directory leaves its parent a link that no entry uses |
| `FsTree.UnlinkExactly` | xv6/sysfile.c:195-206 | Exact counts stay exact through unlink if and only if it does not free a directory |
| `FsTree.MkdirThenRmdir` | xv6/sysfile.c:195-253 | Making and removing a directory leaves its parent one link that no entry uses |
| `FsTree.ResolveWithin` | xv6/fs.c:573-606 | A path that means something still means it after names have been added |
| `FsTree.AddedIsFound` | xv6/fs.c:573-606 | After a name is added where nameiparent leads, namei finds what it names |
| `FsTree.DroppedIsGone` | xv6/fs.c:573-606 | After a name is taken out where nameiparent leads, namei finds nothing, by whatever route the path goes |
| `FsCalls.UnlockPut` | xv6/fs.c:258-263 | iunlockput: one reference and one lock less; the inode is emptied and freed exactly if that was the last reference and it has no links; no other inode on disk changes |
| `FsCalls.UnlinkClear` | xv6/sysfile.c:198-206 | The entry is cleared without allocating a block, nlink lowered on disk, and the inode freed exactly if it was the last link and nobody refers to it |
| `FsCalls.UnlinkIn` | xv6/sysfile.c:176-206 | Refuses exactly the dots, an absent name and a directory with other names; then nothing has changed |
| `FsCalls.Unlink` | xv6/sysfile.c:164-207 | For every path, from the root or the current directory as its first byte says: -1 exactly when there is no parent or it refuses, with everything as before; otherwise one name is gone, TreeInv holds, all references and locks are given back, and namei of the path finds nothing |
| `FsCalls.LinkIn` | xv6/sysfile.c:131-145 | The entry is added, or the link counted in advance is given back and the inode table is exactly what it was |
| `FsCalls.Link` | xv6/sysfile.c:110-146 | For all pairs of paths, each from the root or the current directory: succeeds exactly if the old one names no directory and the new one is free; then TreeInv holds and namei of the new path finds the inode of the old; otherwise everything is as before |
| `FsCalls.CreateAbort` | xv6/sysfile.c:240-245 | A create that finds its name taken frees the new inode, which is ahead of the disk, and nothing else changes |
| `FsCalls.CreateDots` | xv6/sysfile.c:247-253 | The parent has one link more and the new directory its two dots; the panic is reached only if the disk is full |
| `FsCalls.CreateNew` | xv6/sysfile.c:230-255 | The new inode is locked, typed, linked once and named; or create is refused exactly because the name exists |
| `FsCalls.Create` | xv6/sysfile.c:209-256 | For every path, from the root or the current directory: hands out an existing inode exactly if that is allowed and it matches; otherwise makes one, after which TreeInv holds, namei of the path finds it, and a new directory's dots lead to itself and its parent; refused, it leaves the tree as it was |
| `Mkfs.MarkedBelow` | xv6/mkfs.c:220-234 | The bitmap mkfs writes marks exactly the blocks below the first free one |
| `Mkfs.StartHolds` | xv6/mkfs.c:76-92 | The zeroed image with its superblock satisfies the kernel's invariants with all files empty |
| `Mkfs.Image.constructor` | xv6/mkfs.c:76-92 | That image is where building starts |
| `Mkfs.Image.Ialloc` | xv6/mkfs.c:206-218 | The next inode, with one link and no contents; all files as before |
| `Mkfs.Image.MapBlock` | xv6/mkfs.c:252-274 | The block for a block of a file is a correct step of the kernel's bmap on the image as it will be mounted |
| `Mkfs.Image.MapIndirect` | xv6/mkfs.c:260-274 | The same beyond the direct blocks |
| `Mkfs.Image.Iappend` | xv6/mkfs.c:238-285 | The bytes are appended to that file and no other; fails only if the image is full or the file too long |
| `Mkfs.Image.AppendAll` | xv6/mkfs.c:250-282 | The loop of the same |
| `Mkfs.Image.AddFile` | xv6/mkfs.c:107-133 | Adds an inode, its entry in the root directory and its bytes; a name with a slash is refused |
| `Mkfs.Image.AddRoot` | xv6/mkfs.c:94-105 | Inode 1 is a directory with its two dots |
| `Mkfs.Image.FixRoot` | xv6/mkfs.c:135-140 | The root directory is padded with zeroes, if its last block is not full |
| `Mkfs.Image.Balloc` | xv6/mkfs.c:220-234 | The bitmap is written; its assertion fails exactly when 512 or more blocks are used |
| `Mkfs.FullDiskRunsOver` | xv6/fs.c:61-74 | On the disk mkfs makes, with all its blocks marked, the first clear bit of the bitmap block is the one past the last block |
| `Mkfs.FullBlockGainsHole` | xv6/mkfs.c:135-140 | A root directory of 32 entries, which fills one block, is sound and no longer is once rounded up |
| `Mkfs.RoundUpIsOk` | xv6/mkfs.c:135-140 | Rounding a size up keeps a file sound if and only if its last block is not full, and then appends zeroes |
| `Mkfs.Image.Build` | xv6/mkfs.c:94-144 | For every list of files: unless the image is full, a file too long or a name has a slash, the result holds exactly the given files and the kernel's invariants, with a cold cache; link counts cover the names exactly when the names differ |
| `Mkfs.Mountable` | xv6/mkfs.c:135-144 | The image with its bitmap satisfies what every kernel operation requires |
| `Mkfs.ShippedEntry` | xv6/mkfs.c:97-133 | Entry e of the root names inode e under the name of its argument; entries in the padding are unused |
| `Mkfs.RootNamesOnce` | xv6/mkfs.c:107-133 | Names in the root are unique if and only if the arguments, cut to 14 bytes, differ from each other and from the dots |
| `Mkfs.ImageIsTree` | xv6/mkfs.c:94-140 | The image satisfies TreeInv, which link, unlink and create keep, if and only if the names differ |
| `Mkfs.FileFound` | xv6/mkfs.c:107-133 | The path of a slash and the name of an argument, without its leading underscore, leads to the inode of that file, which holds the bytes given |
| `Boot.FindShipped` | xv6/fs.c:573-606 | On the image, namei of a slash and a file's name finds its inode from any current directory, unless an inode is locked or fewer than two slots are free |
| `Boot.ReadAll` | xv6/fs.c:402-425 | ilock and readi of that inode return the bytes given to mkfs |
| `Boot.BuildThenRead` | xv6/mkfs.c:68-144 | mkfs of any files with different names, a kernel started on the image, namei of the root and of any file, and readi: the bytes given, unless the image could not be built |
| `Links.LinkCountsHold` | xv6/sysfile.c:110-256 | In every interleaving, up to the first time that ialloc's iget finds its inode in the cache: nlink on disk and in core is at least the number of names; whatever has a name or is referred to has a type, the same in core and on disk; no panic of ilock, iput, unlink or create is reached |
| `Links.LinksSafeExactly` | xv6/fs.c:236-286 | All that holds throughout a run if and only if no iget of ialloc finds its inode in the cache |
| `Links.GetTypes` | xv6/fs.c:264-286 | The inode that ialloc returns has its type if and only if iget did not find it in the cache |
| `Links.LinkCountsExact` | xv6/sysfile.c:110-256 | Up to such a collision nlink is, at every point, the number of names, plus one for every call that has raised it early or is to lower it, plus what was lost with freed directories |
| `Links.LinksLost` | xv6/fs.c:246-248 | Links are lost only when an inode is freed, and then those of the entries it had |
| `LinksRace.NamesFree` | xv6/fs.c:236-286 | A run in which it does, for any name: one process unlinks and frees a file while another creates the name, and the name leads to an inode of type 0, in core and on disk |
| `LinksRace.Meets` | xv6/fs.c:245-253 | The point of that run at which iget finds the inode that iput is freeing |
| `Links.FreeingIs` | xv6/fs.c:240-253 | From I_BUSY to the end of iput the inode being freed has no name and no other holder, and one reference |
| `Links.EraseKeeps` | xv6/fs.c:246-248 | Emptying the inode and storing type 0 keeps the invariant, in iput as in a create that gives up |
| `Links.FreeEndKeeps` | xv6/fs.c:249-253 | Dropping the reference after that keeps it, also if ialloc has taken the inode meanwhile |
| `Links.CreateGetKeeps` | xv6/fs.c:274-283 | iget and ilock of an inode that ialloc has taken and nobody refers to keep it |
| `Links.OnlyUnusedFreed` | xv6/fs.c:236-255 | An inode whose type becomes 0 in such a run has no name, and no reference but that of the process that frees it |
| `Links.NextKeeps` | xv6/sysfile.c:110-256 | Every step of every system call and of iput keeps the invariant, but for an iget of ialloc that finds its inode in the cache |
| `Links.StoredCovers` | xv6/sysfile.c:120-145 | The counts on disk and in core both cover the names, also between iupdate and the write of the directory |
| `Links.NoPanic` | xv6/sysfile.c:188-253 | The tests for the panics are false where they are reached |
| `Links.FreeIsSafe` | xv6/fs.c:236-244 | When iput finds the last reference to an inode without links, the inode is unlocked, has no name and no other holder |
| `Links.EntryInUse` | xv6/fs.c:471-500 | What an entry names is in use, and has links unless the entry is the dot |
| `Links.PrivateIs` | xv6/sysfile.c:209-256 | An inode create has just allocated has no name and no other holder |
| `Links.AbortFrees` | xv6/sysfile.c:240-245 | When create gives up, its iput does free the new inode |
| `Links.UnlinkClearKeeps` | xv6/sysfile.c:198-206 | Clearing an entry before lowering nlink keeps the invariant |
| `Links.DotDotAddKeeps` | xv6/sysfile.c:247-253 | Adding the parent entry of a new directory is covered by the parent's raised count |
| `Bio.CacheIsCoherent` | xv6/bio.c:59-136 | In every run, with kills and wakeups meant for others: one buffer per sector, a buffer nobody has agrees with the disk, requests are served in order, no sleeper in bget or ide_rw has missed its wakeup, ide_rw's panics are not reached |
| `Bio.BreadReturns` | xv6/bio.c:95-104 | bread returns a busy buffer of the very sector it was called for, with what was last bwritten there in the whole run, whatever was evicted between |
| `Bio.AskedIs` | xv6/bio.c:59-104 | What a process in bread is after is the sector of its latest call |
| `Bio.RecheckKeeps` | xv6/ide.c:146-147 | A process woken in ide_rw tests the flags again; bget's channel is also that of the first buffer |
| `Bio.SpecIsLast` | xv6/bio.c:107-114 | The ghost disk of the invariant is that last bwrite |
| `Bio.VictimIsOldest` | xv6/bio.c:81-90 | The buffer recycled was released longest ago of all that are not busy, and the disk has its contents |
| `Bio.OwnedKeyStays` | xv6/bio.c:59-92 | A buffer that a process has is not given to another sector |
| `Bio.NextKeeps` | xv6/bio.c:59-136 | Every critical section, interrupt and disk action keeps the invariant |
| `Bio.ServedData` | xv6/ide.c:90-115 | What ide_intr leaves in the buffer is what was last bwritten there |
| `BioLists.RingCut` | xv6/bio.c:125-126 | Unlinking a buffer leaves a ring that spells the list without it, both ways round |
| `BioLists.RingPush` | xv6/bio.c:127-130 | Linking it behind the head spells the list with it in front |
| `BioLists.ChainAppend` | xv6/ide.c:134-138 | Writing the last link appends to the queue |
| `BioLists.BufTable.constructor` | xv6/bio.c:38-54 | binit makes a ring of all buffers, none busy or valid |
| `BioLists.BufTable.BgetScan` | xv6/bio.c:59-92 | The two scans and their branches do what Bio's step does: hit, sleep, recycle, panic |
| `BioLists.BufTable.ScanForward` | xv6/bio.c:68-79 | The forward scan finds the buffer of the sector nearest the front |
| `BioLists.BufTable.ScanBackward` | xv6/bio.c:82-90 | The backward scan finds the least recently released buffer that is not busy |
| `BioLists.BufTable.BrelseSplice` | xv6/bio.c:117-136 | The pointer writes move the buffer to the front, as Bio's step does |
| `BioLists.BufTable.IdeRw` | xv6/ide.c:132-142 | The walk to the end of the queue appends the buffer, and starts the disk if the queue was empty |
| `BioLists.BufTable.IdeIntr` | xv6/ide.c:90-115 | The interrupt completes the first buffer and starts the next |
| `Proc.ProcessesAreSafe` | xv6/proc.c:200-443 | At every step of every run: no kernel stack is executed by two CPUs, RUNNING means current on exactly one CPU, switching happens only with the lock, pids are unique, no waiting parent sleeps beside a zombie child |
| `Proc.LifeCycle` | xv6/proc.c:200-443 | In every step of every run a process keeps its state or changes it along the nine edges of its life, each by the step named for it; a sleeper is made runnable only by a wakeup on its channel, by kill of its pid or, in wait, by exit |
| `Proc.StepsTake` | xv6/proc.c:256-398 | yield leaves the process runnable, sleep asleep on its channel, exit a zombie that is not killed; a wakeup makes exactly the sleepers on its channel runnable |
| `Proc.KilledExactly` | xv6/proc.c:337-398 | In every run an entry is killed if and only if kill has found it since it last exited |
| `Proc.KilledStep` | xv6/proc.c:337-355 | kill marks the first entry with the pid, wakes it if it sleeps, and changes nothing else of it |
| `Proc.KilledDoNotWait` | xv6/proc.c:430-437 | Nobody who is killed is asleep in wait |
| `Proc.BornKilled` | xv6/proc.c:337-355 | A run in which kill(0) finds a free entry, and the next process to get it is killed from the start |
| `Proc.FamiliesExactly` | xv6/proc.c:103-147 | Throughout a run every process, and every entry whose fork has stored a parent, has a living parent, and nobody sleeps in wait without children, if and only if no failed fork clears the parent of its entry after another has stored one |
| `Proc.StrayOrphans` | xv6/proc.c:124-130 | Such a store leaves an entry without a parent |
| `Proc.OrphanRun` | xv6/proc.c:124-130 | A run with such a store, on three entries and two CPUs: a process that can run and has no parent |
| `Proc.ClearKeeps` | xv6/proc.c:127-129 | The store after the entry is free keeps the rest of the invariant |
| `Proc.FreedStackIsIdle` | xv6/proc.c:403-443 | The stack that wait or a failing fork frees is not executed by any CPU |
| `Proc.NextKeeps` | xv6/proc.c:200-443 | Every step of scheduler, sched, sleep, wakeup, fork, exit and wait keeps the invariant, in which the parents are claimed until a failed fork has cleared another's |
| `Proc.ExitNoZombie` | xv6/proc.c:382-396 | A sleeper in wait that exit does not wake has no zombie child after it |
| `Proc.ReapKeeps` | xv6/proc.c:417-428 | Freeing a zombie's entry keeps the invariant |
| `ProcTable.Procs.Allocproc` | xv6/proc.c:27-45 | The first unused entry becomes an embryo with a fresh pid; nothing changes if there is none |
| `ProcTable.Procs.WakeAll` | xv6/proc.c:315-323 | Exactly the sleepers on the channel become runnable, and nothing else changes |
| `ProcTable.Procs.KillPid` | xv6/proc.c:337-355 | Fails exactly when no entry has the pid; otherwise the first such is marked killed, made runnable if it slept, and no other field or entry changes |
| `ProcTable.Procs.ExitScan` | xv6/proc.c:380-396 | One loop wakes the parent, gives the children to init and wakes init for zombies, as Proc's step does at once; entry by entry, only that and the exiting process's own state and killed change |
| `ProcTable.Procs.WaitScan` | xv6/proc.c:411-439 | Frees the first zombie child, with its pid and parent cleared and no other entry changed; otherwise reports exactly whether there are children |
| `SleepLock.NoLostWakeup` | xv6/fs.c:190-233 | At single lock operations, with any number of inodes locked by a process: with icache.lock free, a sleeper in ilock waits for an inode that some process has; at most one has it |
| `SleepLock.StepWaits` | xv6/proc.c:276-332 | No step of another process makes a waiter miss its wakeup |
| `SleepLock.NextKeeps` | xv6/proc.c:276-332 | Every lock operation of sleep and wakeup keeps the invariant |
| `SleepLock.RunSleeps` | xv6/fs.c:190-233 | Every run of ilock and iunlock is a run of Sleep, with the inodes that are not busy as the conditions |
| `SleepLock.SleepersBusy` | xv6/fs.c:198-203 | So what Sleep proves is true of it: with icache.lock free, a sleeper's inode is busy |
| `Sleep.SleepersWait` | xv6/proc.c:276-332 | For any lock, conditions and channels, at single lock operations: with the lock free, the condition of every sleeper is false, as long as whoever makes it true calls wakeup before giving up the lock |
| `Sleep.NextKeeps` | xv6/proc.c:276-332 | Every lock operation of sleep, wakeup and kill keeps the invariant |
| `Spinlock.LocksExclude` | xv6/spinlock.c:25-116 | At single machine operations: no lock has two owners, holding() is exact although its two fields change apart, an owner has interrupts off, and the popcli in release does not panic |
| `Spinlock.FlagRestored` | xv6/spinlock.c:96-116 | Between two moments of a run at which a CPU has no pushcli outstanding, with some outstanding all the time between, its interrupt flag is restored, across any nesting of locks |
| `Spinlock.FlagStep` | xv6/spinlock.c:96-116 | The saved flag changes only when the count leaves 0, and is put back when it returns to 0 |
| `Spinlock.NextKeeps` | xv6/spinlock.c:25-116 | Every operation keeps the invariant |
| `Pages.PagesConserved` | xv6/proc.c:50-158 | In every sequence of forks, failed forks, sbrks, execs, exits, waits and pipes, until a page of a pipe is given back twice: the free pages and all holdings are disjoint and together are the region given to kinit, and kfree does not panic |
| `Pages.ConservedExactly` | xv6/pipe.c:60-75 | That holds throughout a run if and only if no page of a pipe is given back by both closers |
| `Pages.ConservedByTests` | xv6/pipe.c:71-74 | In a run that has made the kfrees pipeclose decided on, if and only if no pipeclose sees both ends shut after the other has |
| `Pages.ClosedIsFreed` | xv6/pipe.c:60-75 | Once both closers have looked at the ends, at least one of them has found both shut: the page is not leaked |
| `Pages.DoubleKfreePanics` | xv6/pipe.c:71-74 | A run in which both do, and the second kfree panics |
| `Pages.DoubleKfreeShares` | xv6/pipe.c:71-74 | A run in which another pipe has the page by then: it ends up in use and free |
| `Pages.AllReturned` | xv6/proc.c:418-428 | When nobody holds a page, and none was given back twice, the free list is the very one kinit made |
| `Pages.ForkSize` | xv6/proc.c:123-124 | The child of a fork has as much memory as its parent, unless there was no room |
| `Pages.MemStays` | xv6/proc.c:50-158 | What a process has stays where and as large as it is until it is given back |
| `Pages.CommitSize` | xv6/proc.c:54-61 | After sbrk or exec the process has the size it last asked for, in the new memory |
| `Pages.GetKeeps` | xv6/kalloc.c:89-116 | A piece from kalloc was nobody's |
| `Pages.FreeKeeps` | xv6/kalloc.c:44-84 | A piece given back was not free, so kfree's panic is not reached |
| `Pages.ForkKeeps` | xv6/proc.c:103-147 | fork, with success or failure at any allocation, loses no page |
| `Pages.WaitKeeps` | xv6/proc.c:418-428 | wait, and a fork that gives up, give back what was held and no more |
| `Pages.ExchangeKeeps` | xv6/exec.c:52-114 | exec and sbrk, committed or aborted, lose no page and free none twice |
| `Pages.PipeKeeps` | xv6/pipe.c:60-75 | The steps of pipealloc and pipeclose lose no page, but for a second kfree of the same one |
| `Umalloc.SearchStops` | xv6/umalloc.c:30-32 | The two tests that end free's search hold at exactly one node of the circular list: the one below the block |
| `Umalloc.FreedLinks` | xv6/umalloc.c:33-43 | The link writes of free, in each of the four merges, spell the merged list |
| `Umalloc.FreedIs` | xv6/umalloc.c:33-43 | That list is ordered and disjoint, and free are exactly the old units and those of the block |
| `Umalloc.TakeFacts` | xv6/umalloc.c:75-84 | Taking a block whole, or its tail, keeps the list ordered and linked |
| `Umalloc.RoomExactly` | xv6/umalloc.c:69 | The block has room for the bytes asked for if and only if rounding up does not wrap around |
| `Umalloc.WrapsToHeader` | xv6/umalloc.c:69 | malloc(0xffffffff) asks for a header and nothing else |
| `Umalloc.Heap.constructor` | xv6/umalloc.c:21-22 | Before the first malloc |
| `Umalloc.Heap.Search` | xv6/umalloc.c:30-32 | The search ends, from any freep, at the node after which the block belongs |
| `Umalloc.Heap.Free` | xv6/umalloc.c:24-44 | The block is no longer live, exactly its units become free, all other live blocks keep their place and size |
| `Umalloc.Heap.Morecore` | xv6/umalloc.c:46-61 | On success a block of at least nunits is on the list; on failure nothing has changed |
| `Umalloc.Heap.TakeFrom` | xv6/umalloc.c:75-84 | The block taken was free, has exactly nunits and is disjoint from every live block |
| `Umalloc.Heap.Malloc` | xv6/umalloc.c:63-90 | Returns a new live block of the units asked for, disjoint from all others; fails only if sbrk does and no block is large enough; grows the heap only if no block is large enough |
| `Umalloc.Heap.Scan` | xv6/umalloc.c:74-89 | The walk from freep finds a block that is large enough, or none is |
| `Pipe.PutSpells` | xv6/pipe.c:92 | Storing a byte in the ring appends it to the bytes in the pipe |
| `Pipe.HeadIs` | xv6/pipe.c:115 | The byte copied out is the oldest one |
| `Pipe.TestsAreTrue` | xv6/pipe.c:84-113 | The tests on indices that wrap around at 2^32 are the tests on the true counts |
| `Pipe.Buffer.StoreFrom` | xv6/pipe.c:83-93 | Bytes are stored in order until done or the pipe is full |
| `Pipe.Buffer.Take` | xv6/pipe.c:112-116 | Returns the oldest bytes in order, as many as asked for or there are |
| `Pipe.PipeIsFifo` | xv6/pipe.c:77-120 | In every run the reads concatenate to a prefix of the bytes stored, at most 512 are in the pipe, and with the lock free a sleeping writer means a full pipe that is open for reading |
| `Pipe.WritesInOrder` | xv6/pipe.c:77-97 | However writers interleave, the bytes one pipewrite has stored are a prefix of what it was called with, in order |
| `Pipe.WritesWhole` | xv6/pipe.c:83-97 | A pipewrite that ends has stored all of it, or met a full pipe, killed or without a reader |
| `Pipe.SoleWriteIsRead` | xv6/pipe.c:77-120 | If only one pipewrite is called, what readers get is a prefix of what it was called with |
| `Pipe.ReadsEnough` | xv6/pipe.c:111-119 | A piperead returns as many bytes as it asked for, or all there were |
| `Pipe.ReadsNothing` | xv6/pipe.c:99-120 | A read of n > 0 bytes returns none only if the pipe is empty and closed for writing |
| `Pipe.ReadersServedExactly` | xv6/pipe.c:77-120 | In a run, sleeping readers always mean an empty pipe that is open for writing, if and only if no writer that is killed or has no reader left meets a full pipe, with bytes to write, while a reader sleeps |
| `Pipe.LostWakeup` | xv6/pipe.c:83-90 | A run with a kill of the running writer, after which a reader stays asleep beside a full pipe that is open at both ends |
| `Shell.SkipSpaces` | xv6/sh.c:264-319 | The loop over white space |
| `Shell.Gettoken` | xv6/sh.c:264-307 | The pointer loops return the next token and the cursor behind it |
| `Shell.ArgLoop` | xv6/sh.c:428-443 | The loop of parseexec computes the recursive reading of words and redirections |
| `Shell.ItemsParse` | xv6/sh.c:414-445 | Words and redirections in any order: the words are the arguments in order, wrapped in the redirections in order, with >> among them |
| `Shell.ParsesTo` | xv6/sh.c:326-445 | Every line of the grammar is accepted, and parses to what it means |
| `Shell.ParsesExactly` | xv6/sh.c:326-445 | The shell accepts a line if and only if it is one of the grammar: plain commands of at most nine words, pipes, lists, ampersands and parentheses |
| `Shell.RestAccepted` | xv6/sh.c:428-443 | What parseexec has read is words and redirections, and its result is made of them |
| `Shell.LineAccepted` | xv6/sh.c:343-371 | What parseline has read is a line of the grammar, and its result is what it means |
| `Shell.LexTyped` | xv6/sh.c:264-307 | gettoken reads typed tokens back, whatever white space is between them |
| `Shell.PipeLine` | xv6/sh.c:360-371 | Any two words with the pipe symbol between them are a pipe from the first to the second |
| `Shell.ListLine` | xv6/sh.c:343-358 | For any words a and b, the line `a ; b` is a list of a and b |
| `Shell.RedirLine` | xv6/sh.c:373-398 | For any words a and f, the lines `a < f`, `a > f` and `a >> f` redirect a |
| `Shell.RoundTrip` | xv6/sh.c:326-341 | Every command tree can be typed, with parentheses only where it is not a plain command and any spacing, and is what the shell then parses |
| `Shell.ParsedOk` | xv6/sh.c:326-341 | On any accepted line every word of the tree stands in the line, ends before a space or symbol, and holds none |
| `Shell.LineOk` | xv6/sh.c:343-445 | The same from any cursor |
| `Shell.Nulterminate` | xv6/sh.c:448-492 | A NUL at the end of every word of the tree, and no other character changed |
| `Shell.NulArgs` | xv6/sh.c:462-466 | The same for one command |
| `Shell.WordsReadBack` | xv6/sh.c:326-492 | On any accepted line, after nulterminate, each word read as a C string is the token |

## Left out

- Booting, assembly, segments, traps, interrupt controllers, the console, the keyboard and the fetching of system call arguments.
- Port I/O of the disk: a disk action of `Bio` transfers one sector atomically and does not fail.
- exec's reading of ELF files and its building of the argument stack; `Pages` models which pages it takes and gives back, not what is in them.
- More than one file system: inodes are on one device, and `link` across devices is not a case. Buffers carry their device.
- Device inodes in `readi` and `writei`, and the table of open files.
- The shell's `runcmd`, and the user programs other than the shell's parser and `malloc`.
- Crashes in the middle of an operation, liveness and fairness: the theorems are about safety.
- Deadlock between inode locks: not claimed.
- Overflow of ref and pid, and in `Links` of nlink, which the source does not check.
- FsKernel.FileSystem.Writei: requires an offset within the file, as all callers have it; `FsFiles.GapIsHole` says what the other offsets do. After the disk has run out of blocks nothing is claimed, since the source panics in balloc.
- FsKernel.FileSystem.BallocData: where balloc returns a block past the end of the disk, the model stops as if the disk were full; `FsKernel.FileSystem.Balloc` says exactly when that is.
- FsKernel.FileSystem.Ilock: stops where the source sleeps; the waiting is in `SleepLock`.
- FsKernel.FileSystem.Iput: the freeing path is taken as one step here; `Links` has its steps apart, and says what ialloc may do between them.
- FsNames.Dirlink: says when the source panics, and nothing about the state it then leaves.
- FsNames.Namei: says when the source panics or waits, and does not go on after a wait.
- FsCalls.Unlink, FsCalls.Link, FsCalls.Create: nothing else is in a system call meanwhile; `Links` has their steps interleaved, on directories as finite maps. Where nlink would exceed a short the model stops.
- dirlink's own lookup and iput of an existing name is no separate step of `Links`; `FsNames.Dirlink` shows that it changes nothing.
- Links.CreateGetKeeps: the iget of an inode that is not in the cache and the ilock after it are one step, as are in a create that gives up the iunlock and the part of iput before type 0 is stored; nobody else can reach the inode in between (`Links.PrivateIs`).
- Links.LinksSafeExactly: after the first collision the steps are followed as far as `LinksRace` needs them; eviction of a slot that was part of one is not modelled.
- Proc.FamiliesExactly: allocproc takes any free entry, not always the first, since entries are freed without the lock while it scans; `ProcTable.Procs.Allocproc` is its loop without that.
- Bio.CacheIsCoherent: a step is a whole critical section; that sleep gives up its lock and sleeps at once is justified by `Sleep`.
- Spinlock.FlagRestored: intena is per CPU and sched saves it nowhere, so nothing is claimed across a context switch.
- The free list of kalloc is threaded through the free memory itself in the source, and is a sequence here; overwriting free memory is not modelled. In particular kfree fills the block with junk first, so a partly free block also destroys the headers of the runs in it.
- Pages.ForkKeeps: the copying of a parent's memory is one step after its allocation.
- Pages.ConservedExactly: kfree fills the page with junk and inserts it in one step. A pipeclose that looks at a page given back reads a non-zero writeopen while the page is free, and anything once somebody else has it.
- Umalloc.Heap.Malloc: memory from sbrk lies above all earlier memory; requests so large that their byte count overflows the int passed to sbrk are not distinguished.
- Boot.BuildThenRead: as for `Mkfs.Image.Build`, the root directory must not exactly fill its blocks (`Mkfs.RoundUpIsOk`).
- Mkfs.Image.Build: the number of files must fit the inode table, which mkfs does not check; failures to open or read an input file are not modelled.
- Shell.RoundTrip: words are free of spaces and symbols and a command has fewer than 10 of them, as the parser requires.
- Pipe.PipeIsFifo: closing an end is one step, taken while nobody has the lock. That a killed process does not sleep is not claimed: a kill between its test of killed and its sleep goes unnoticed until it is woken.
