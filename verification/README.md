# Operator queue, schedules, recovery, installer overlay and package repository, verified

Rougarou's operator tools keep durable state that must survive crashes, several processes at once, and hostile or
merely odd input. This project models that state in Dafny and proves what it is meant to guarantee. Everything is
proved for all inputs and, where a protocol is concerned, for all runs: each transaction or file operation is one
step, and a process may die between any two.

| file | what it models |
|---|---|
| `Text.dfy`, `TextLaws.dfy` | the string operations the parsers use: lines, words, stripping, decimal numbers; what they do, character by character |
| `Stanzas.dfy` | control-file stanzas (Debian Policy Manual, section 5.1): printer, parser, and the updater's own second parser |
| `Release.dfy` | the signed Release table as printed, verified, and read by the updater; the generated APT sources |
| `ReaderRules.dfy`, `ReleaseRules.dfy` | what each kind of line does in either parser; exactly which tables and directories are accepted |
| `Packages.dfy`, `IndexRules.dfy` | the check of a package index against its files, and the index and pool of a snapshot; exactly which indexes are valid |
| `Verification.dfy` | what `verify` checks of a signed directory, and what passing it is worth |
| `Repository.dfy` | the immutable store, publications and channel pointers, one file operation at a time; what no step breaks |
| `Availability.dfy`, `SignedStore.dfy` | what clients see over whole runs: availability, stable after testing, every directory verifies |
| `Promotion.dfy`, `SmallRepository.dfy` | that promotion gets through when nothing stands against it; concrete runs, and how a compressed index is lost |
| `Suites.dfy` | the Release line by line, and which suite each directory is signed for |
| `RepositoryRoot.dfy`, `PromotionRules.dfy` | `snapshot` and `promote` as code that takes these steps; exactly when each is refused, and as what |
| `Initrd.dfy`, `Newc.dfy` | the newc reader and writer and the overlay; the format byte by byte |
| `Installer.dfy` | `prepare`: what the image it writes holds, path by path |
| `RestoreTree.dfy` | staged restores: paths, pathname resolution (POSIX.1-2017 XBD section 4.13), and materialisation in any order |
| `Listings.dfy` | the listing check before a staged restore: its loop, and exactly which listings it accepts |
| `ReservedNames.dfy` | exactly which roots keep the reserved names free in every restore |
| `Tables.dfy`, `JobQueue.dfy` | the rows of the queue database and its transactions, as functions and as the object that runs them |
| `History.dfy`, `Progress.dfy` | the event log as a faithful history; what no transaction takes back |
| `Answers.dfy` | what the queue's commands answer and leave, row by row |
| `Execution.dfy`, `Outcomes.dfy` | the polling loop around one process: outcome and capped log; exactly when which outcome |
| `Scheduler.dfy` | revisioned schedules |
| `Notifier.dfy`, `ReplacedQueue.dfy` | the notification cursor, in steps between which it may crash; what is never sent after the queue was replaced |
| `OperatorSystem.dfy`, `OperatorTheorems.dfy` | worker, command line, timers, notifier and crashes over one database: the invariant, and the theorems about every run |
| `Lives.dfy`, `Schedules.dfy`, `Attention.dfy` | every change of a job, of a schedule and every notification traced to its cause, over every run |
| `Firings.dfy` | exactly when a timer's run is its stored definition, and the earlier successful run |
| `Commands.dfy` | the methods of the queue and the scheduler are runs of the system's steps |
| `Fairness.dfy`, `RestoredSystem.dfy` | how long a ready job can be overtaken; a queue brought back from a backup |

A method with a loop is proved equal to a function or to a declarative condition, and the lemmas are about those. A
reason or detail in the queue is a value of `Tables.Note`; its `Text` is what the column holds. Signatures, hashes,
gzip, UTF-8, processes, the webhook, systemd and the file system's links are oracles: parameters, or inputs of a step.
SHA-256 is assumed to give 64 hexadecimal digits and to be free of collisions among the contents that occur in the run
in question, a finite set (`Packages.Hashes`, `Availability.ContentsOf`); `SmallRepository.FirstRelease` is a run that
meets the assumption and ends with a published package. Names are assumed to decode back after encoding
(`Initrd.Codec`), the compressor to be undone by decompression, and concatenated gzip members (section 2.2 of RFC 1952)
to decompress to the concatenation.

## Where the code does less than one might expect

Six expected properties are false of the code as it stands. Each has a failing input or run below, and the exact
condition under which it holds.

- A run queued by a timer has the tested kind, specification and timeout, but its directory is resolved again when it is
  queued. For every run of the system and every fired job, it is the stored definition to the letter if and only if the
  stored path resolved to itself at that firing, and it is the same job as the earlier successful run if and only if the
  path resolved to what it had resolved to for that one (`Firings.FiredRunIsTheDefinitionIff`). `Firings.ResolutionCanMoveAFiring` is a
  run of saving, testing, enabling and firing in which the fired job lands elsewhere.
- `PurePosixPath` keeps a leading `//` apart from `/`, the kernel does not. A listing under roots of both kinds can be
  accepted although two nodes share one location (`RestoreTree.DoubleSlashOverlaps`). Materialisation is faithful in
  every order if and only if no two nodes overlap with the slashes taken as one (`RestoreTree.MaterialisationIsExact`),
  and for every accepted listing if and only if no root begins with two slashes, the capsule being among the roots
  (`RestoreTree.AlwaysFaithfulIff`).
- For the same reason a restored node can get to one of the three reserved names (`ReservedNames.ReservedNameReached`).
  The names stay free for all accepted listings in all orders if and only if the roots have no pair of slash kinds of
  which one admits a symlink at the top and a reserved target, and the other something below that symlink
  (`ReservedNames.ReservedNamesStayFreeIff`). The roots a configuration can hold have no such pair
  (`ReservedNames.SelectableIsHarmless`), but the restore does not repeat that check on the manifest it reads.
- The comment at scripts/repo.py:295 promises that every index of earlier clients is retained. Promotion compresses
  `Packages` again and does not add the result to the shared index. In every run a publication serves a compressed index
  under its digest if and only if the shared index had it when that promotion began, the promoted snapshot has it, or
  signing just made it (`Availability.CompressedIndexIsKeptIff`). Two promotions of one snapshot between which the
  compressor changes lose one, whatever came before (`Promotion.RecompressionLoses`);
  `SmallRepository.CompressedIndexIsLost` is such a run. Package files and uncompressed indexes are always kept
  (`Availability.MonotoneAvailability`).
- A notifier that finds another log under its cursor never sends the attention events up to a certain number, and sends
  all later ones: if a reading tells it that the log is another one, that number is the length of the log then; if not,
  it is the old cursor (`ReplacedQueue.ReplacedQueueTheorem`). A log is told apart exactly by another first job or by
  fewer events than the cursor (`ReplacedQueue.SeenIff`); a restored copy of the same queue that has been used again is
  not, and its interrupted job is never reported (`ReplacedQueue.RestoredCopySkips`, `ReplacedQueue.CopyIsChecked`).
- The updater's parser takes a continuation line of white space alone as the end of a stanza, the publisher's does not;
  they agree on printed stanzas if and only if there is none (`Stanzas.ParagraphsOfEncode`,
  `Stanzas.BlankContinuationIsLost`).

## Model

| member | source | states |
|---|---|---|
| Stanzas.ParseRecords | scripts/repo.py:68-89 | the parsing loop with its three variables computes the parse function |
| Stanzas.StanzaRoundTrip | scripts/repo.py:92-94 | parsing the print of any canonical list of entries gives the list back |
| Stanzas.ParsedIsCanonical | scripts/repo.py:68-94 | whatever parses is canonical, so parse, print, parse equals parse |
| Stanzas.ScanParagraphs | rootfs/usr/lib/rougarou/updates.py:93-107 | the updater's reading loop computes its own parse function |
| Stanzas.ParagraphsOfEncode | rootfs/usr/lib/rougarou/updates.py:93-107 | on printed entries the updater reads the field-wise trimmed image, if and only if no continuation is white space alone |
| Stanzas.BlankContinuationIsLost | rootfs/usr/lib/rougarou/updates.py:93-107 | a printed stanza that the publisher reads back and the updater does not |
| ReaderRules.FieldIsRead | scripts/repo.py:82-86 | a line of a key, a colon and a value adds that field without the white space before the value, or is an error if the key is there |
| ReaderRules.ContinuationIsRead | scripts/repo.py:77-81 | an indented line is added to the last field as it is, or is an error without one |
| ReaderRules.FieldIsScanned | rootfs/usr/lib/rougarou/updates.py:103-106 | in the updater's parser the value loses white space at both ends |
| ReaderRules.ContinuationIsScanned | rootfs/usr/lib/rougarou/updates.py:100-102 | an indented line is added without its first character |
| ReaderRules.BlankIsScanned | rootfs/usr/lib/rougarou/updates.py:95-99 | a line of white space alone ends the stanza |
| TextLaws.LineThen | scripts/repo.py:72 | which characters end a line, a carriage return and a line feed being one end |
| TextLaws.WordFirst | scripts/repo.py:214 | words are what stands between white space |
| Release.VerifyTable | scripts/repo.py:210-222 | the table loop of `verify` with its `checked` set computes the table check |
| Release.ReadSignedHashes | rootfs/usr/lib/rougarou/updates.py:242-252 | the updater's table loop computes its digest map or refuses |
| Release.SignedHeaderIsGood | scripts/repo.py:154-158 | the fixed Release header is one both readers take apart field by field |
| Release.ReleaseIsRead | scripts/repo.py:154-172 | both readers find exactly one stanza in the printed Release, with the printed fields |
| Release.VerifyAcceptsExactlyTheSigned | scripts/repo.py:201-222 | `verify` accepts a set of files against a printed table if and only if each signed file is there with the signed size and digest |
| Release.UpdaterReadsTheSigned | rootfs/usr/lib/rougarou/updates.py:242-252 | from the same text the updater recovers exactly the signed digests and sizes |
| Release.SourceTextIsRead | rootfs/usr/lib/rougarou/updates.py:177-180 | the generated APT sources read back as one stanza per source with its fields |
| ReaderRules.SourceTextIs | rootfs/usr/lib/rougarou/updates.py:177-180 | the generated APT sources line by line, one empty line between two |
| ReleaseRules.CheckTableIff | scripts/repo.py:210-222 | the table is accepted if and only if each written line is a digest, a decimal size and one of the four names, none twice, of a file with this size and digest, and both indexes are named |
| ReleaseRules.SignedHashesIff | rootfs/usr/lib/rougarou/updates.py:242-252 | the updater has digests if and only if each written line is a digest of 64 hexadecimal digits, a decimal size and a new name, and there is one; they are those of the rows |
| Packages.ValidatePackages | scripts/repo.py:109-127 | accepted if and only if the index parses, no package version repeats, and every listed file is there with its size and digest |
| Packages.CheckList | scripts/repo.py:112-126 | the loop over the stanzas with its `seen` set decides exactly that |
| Packages.CopyPackages | scripts/repo.py:241-248 | the copying loop of `snapshot` makes the rewritten index and the copied pool |
| Packages.PackageMoved | scripts/repo.py:243-247 | a rewritten `Filename` is a safe package path again and leaves everything else of the package alone |
| Packages.SnapshotIsFaithful | scripts/repo.py:236-253 | a snapshot's index read back lists the same packages in order, each in the pool with the same bytes; the snapshot of a valid repository is valid |
| IndexRules.ValidIff | scripts/repo.py:109-127 | an index is valid if and only if each stanza has the six fields, one line each, a safe path of a `.deb` file, a decimal size and a digest, no name, version and architecture come twice, and each file is there with its size and digest |
| IndexRules.SnapshotIs | scripts/repo.py:241-248 | the stanzas of a snapshot are those of the source with the file at `pool/`, its digest and its old name, and the pool has it there |
| Verification.VerifyDirectory | scripts/repo.py:201-227 | `verify` after its signatures: Release, table, compressed index and package index are checked in that order |
| Verification.OnlyTheSignedVerifies | scripts/repo.py:145-227 | under a signed Release `verify` accepts a directory if and only if its files are the signed ones to the byte and the index is good, and reports the signed suite and snapshot |
| ReleaseRules.VerifyIff | scripts/repo.py:201-227 | for any Release text: accepted if and only if it is one stanza of this archive with an expiry, the table lists files of the directory, the compressed index is the index, and that is valid; the answer names the suite, and the snapshot of a listed manifest |
| Suites.ReleaseIs | scripts/repo.py:154-172 | the signed Release line by line, with suite, dates, architectures and one row for each file |
| Repository.NewSnapshotIsSound | scripts/repo.py:230-256 | a new snapshot directory is signed as it is, over a valid index of its own pool, with both indexes by hash |
| Repository.SoundStays | scripts/repo.py:306-309 | hard-linked content never changes under a signed directory, whatever step follows |
| Repository.StepGrows | scripts/repo.py:259-265 | no step renames or rewrites a file of the shared store, but for the one half written |
| Repository.StepKeepsFiles | scripts/repo.py:259-321 | every file operation and every crash keeps snapshots and publications sound and the half-written file apart |
| Availability.StepKeeps | scripts/repo.py:259-321 | the whole invariant, with what clients see, survives every step |
| Availability.MonotoneAvailability | scripts/repo.py:295-322 | what a channel points at serves, to the byte, every package file and by-hash index of every publication visible up to its own switch, on either channel, and each compressed index exactly under the condition below |
| Availability.StableOnlyFollowsTesting | scripts/repo.py:276-280 | each publication stable ever showed is of the snapshot testing showed at that moment |
| Availability.PointersSwitchWhole | scripts/repo.py:311-320 | pointers change only by a whole switch, to a directory sound by then; refusals and crashes leave both |
| Availability.HalfCopyBlocks | scripts/repo.py:260-263 | a differing shared file, such as a half-copied one, lets a promotion do nothing but stop |
| Availability.CompressedIndexIsKeptIff | scripts/repo.py:152-171 | for every run, publication and text: the by-hash directory serves it if and only if the shared index did when the promotion began, or the snapshot does, or it is the new compression |
| SignedStore.EveryDirectoryVerifies | scripts/repo.py:185-321 | in every reachable state `verify` accepts each snapshot as itself and each publication as one of its channel and snapshot |
| Suites.EveryDirectoryIsOfItsSuite | scripts/repo.py:145-158 | in every reachable state each snapshot verifies as of suite `snapshot`, each testing publication as of `testing`, each stable one as of `stable`, and its Release says so |
| Promotion.PromotionGoesThrough | scripts/repo.py:268-321 | from every reachable state a promotion that nothing stands against has a run to its end, with the channel at a publication of exactly this snapshot |
| Promotion.RecompressionLoses | scripts/repo.py:295-310 | whatever came before, promoting a snapshot twice with two compressions of its own leaves a channel without the compressed index it showed before |
| SmallRepository.FirstRelease | scripts/repo.py:230-321 | a concrete run from the empty repository to a published package, under a hash that meets the assumption |
| SmallRepository.CompressedIndexIsLost | scripts/repo.py:295-310 | a concrete run of two promotions after which the compressed index of the first is gone |
| RepositoryRoot.Root.AddImmutable | scripts/repo.py:259-265 | succeeds if and only if the file is absent or equal, then the store has the source's content and all it had; a refusal changes nothing |
| RepositoryRoot.Root.NewIndexFiles | scripts/repo.py:163-171 | one new by-hash file for each of the two index files that has none under its digest, with that content |
| RepositoryRoot.Root.SignStage | scripts/repo.py:300-310 | signing a staged directory is one step of the store: it changes nothing shared and keeps the staged files but for the new compression |
| RepositoryRoot.Root.ObjectionIsReal | scripts/repo.py:269-288 | the checks of `promote`, each a `verify` of a directory, pass if and only if the snapshot is there and, for stable, testing shows it and it is approved |
| RepositoryRoot.Root.Snapshot | scripts/repo.py:230-256 | refused exactly on a bad or taken name, an invalid source or a failing signature, then nothing changes; otherwise adds one snapshot with the packages of the source and the same bytes |
| RepositoryRoot.Root.AddAll | scripts/repo.py:296-299 | the copying loop gets through if and only if every file is absent or equal in the shared store beforehand; then the store has them all and all it had |
| RepositoryRoot.Root.Promote | scripts/repo.py:268-321 | is a run of the store's steps and refuses exactly when something stands against it; a refusal leaves pointers and publications, a success adds one publication of exactly this snapshot and points the channel at it; the channel then verifies as of the suite `stable` or `testing` it is |
| PromotionRules.SnapshotRefusalIs | scripts/repo.py:230-236 | which refusal of `snapshot` comes when: name, existing snapshot, invalid source, signing |
| PromotionRules.ObjectionIs | scripts/repo.py:269-288 | which check of `promote` refuses when: name, snapshot, testing, approval |
| PromotionRules.PromotionRefusalIs | scripts/repo.py:268-321 | otherwise it is refused if and only if a shared file differs, signing fails or the name is taken, in this order |
| Initrd.Hex8RoundTrip | image/installer/prepare-initrd.py:48-49 | a 32-bit field printed in eight hexadecimal digits reads back |
| Initrd.Entries | image/installer/prepare-initrd.py:15-43 | the two nested loops compute the reading function |
| Initrd.AlignIsMasking | image/installer/prepare-initrd.py:36-40 | the alignment is the masked sum of the source, and a multiple of four |
| Initrd.FieldsOfPrinted | image/installer/prepare-initrd.py:46-49 | the printed header numbers are read back one for one |
| Initrd.PrintedIsMember | image/installer/prepare-initrd.py:46-53 | a printed record is one well-formed member with that name, mode and payload |
| Initrd.ReadMemberAt | image/installer/prepare-initrd.py:24-42 | a member reads the same at any offset divisible by four, though printed padding is relative to it and parsed padding to the archive |
| Initrd.ReadPieces | image/installer/prepare-initrd.py:15-43 | an archive of members and aligned zero runs reads as its members, the last of a name winning |
| Initrd.OverlayTheorem | image/installer/prepare-initrd.py:120-124 | the original followed by the printed overlay reads as the original overridden at exactly the overlay's names, modes and bytes |
| Installer.Prepare | image/installer/prepare-initrd.py:56-128 | `prepare` with its refusals, its own validation included; whatever it answers, the image holds each file of the kit at its path with its mode, and the status with the three stanzas after the original text |
| Installer.PrepareTheorem | image/installer/prepare-initrd.py:109-128 | on a well-formed original `prepare` succeeds and its output reads as the overridden original |
| Installer.PrepareRunsOnce | image/installer/prepare-initrd.py:66-68 | for any original, a second `prepare` on the output always refuses |
| Installer.PreparedInstalls | image/installer/prepare-initrd.py:108-128 | whatever `prepare` answers: frontend, theme and the nine component files at their paths with permissions 0644 or 0755, and the status extended by the three stanzas |
| Installer.PreparedIff | image/installer/prepare-initrd.py:56-128 | on a well-formed original it succeeds if and only if frontend and status are there, no line is marked, and the kit is complete; every other path reads as in the original |
| Newc.RecordIs | image/installer/prepare-initrd.py:46-53 | a printed record byte by byte: magic, thirteen fields of eight digits, name, zero byte, padding, data, padding |
| Newc.CpioIs | image/installer/prepare-initrd.py:120-124 | the overlay is one record for each file, numbered from one, a trailer, and zeros up to a multiple of 512 |
| Newc.MemberIs | image/installer/prepare-initrd.py:24-42 | a member is read at a position if and only if magic, digits, terminated name and whole payload are there, on padded positions |
| Newc.ReadingGoesOn | image/installer/prepare-initrd.py:15-43 | reading skips zero bytes, reads one member, and goes on behind it |
| Listings.ValidateTree | rootfs/usr/lib/rougarou/backup.py:349-396 | the loop with its path set, link list and metadata cache accepts exactly the listings that are in order, as raw paths |
| Listings.CheckLink | rootfs/usr/lib/rougarou/backup.py:370-392 | a symlink passes if and only if its metadata is unique and its target relative, never upward and inside a root |
| Listings.InOrderIff | rootfs/usr/lib/rougarou/backup.py:349-396 | acceptance in terms of the raw texts: spelling, the three reserved names, under a root or on the way to one, kinds, link targets, and no node at or below a symlink |
| Listings.HonestListingIsAccepted | rootfs/usr/lib/rougarou/backup.py:356-369 | distinct canonical paths without reserved names, directories on the way to a root and files or directories at or below one: accepted |
| Listings.OneBadNodeRefuses | rootfs/usr/lib/rougarou/backup.py:359-394 | one file or symlink strictly above the roots, path beside them, special file or reserved name: refused |
| Listings.NoPathRefuses | rootfs/usr/lib/rougarou/backup.py:356-358 | a node whose text is no canonical absolute path: refused |
| RestoreTree.AdvanceStaysInside | rootfs/usr/lib/rougarou/backup.py:383-391 | one step of resolution keeps location plus what lies ahead inside some root |
| RestoreTree.ResolutionStaysInside | rootfs/usr/lib/rougarou/backup.py:383-391 | so does any number of steps, through chains of links, links inside targets, dangling links and cycles |
| RestoreTree.RestoredTreeIsContained | rootfs/usr/lib/rougarou/backup.py:349-396 | for every accepted listing, any path without `..` inside a root resolves inside some root at every step |
| RestoreTree.UpwardTargetEscapes | rootfs/usr/lib/rougarou/backup.py:386-388 | without the refusal of upward targets, a lexically contained link leads outside every root |
| RestoreTree.MaterialisationIsExact | rootfs/usr/lib/rougarou/backup.py:362-364 | creating the nodes of an accepted listing puts each at exactly its own path in every order, if and only if no two overlap with slashes taken as one |
| RestoreTree.SingleSlashRootsAreFaithful | rootfs/usr/lib/rougarou/backup.py:395-396 | with single-slash roots that always holds: never through a symlink, distinct nodes distinct |
| RestoreTree.AlwaysFaithfulIff | rootfs/usr/lib/rougarou/backup.py:349-396 | with the capsule among the roots, materialisation is faithful for every accepted listing in every order if and only if all roots have a single slash |
| RestoreTree.DoubleSlashOverlaps | rootfs/usr/lib/rougarou/backup.py:350-364 | with the capsule and `//` as roots, an accepted listing whose two nodes share a location |
| ReservedNames.ReservedNamesStayFreeIff | rootfs/usr/lib/rougarou/backup.py:349-396 | exactly which roots keep the reserved names free after materialising any accepted listing in any order |
| ReservedNames.SelectableIsHarmless | rootfs/usr/lib/rougarou/backup.py:127-153 | roots that a configuration can hold are such roots |
| ReservedNames.ReservedNameReached | rootfs/usr/lib/rougarou/backup.py:349-396 | with the capsule, the filesystem root and `//a` as roots, an accepted listing puts a file below a reserved name |
| JobQueue.Database.Submit | rootfs/usr/lib/rougarou/jobs.py:101-115 | one queued job and its event, or a refusal that changes nothing |
| JobQueue.Database.Finish | rootfs/usr/lib/rougarou/jobs.py:118-127 | ends a job once; a recorded cancellation overrides the outcome |
| JobQueue.Database.Cancel | rootfs/usr/lib/rougarou/jobs.py:130-141 | cancels a queued job, flags a running one, refuses a finished one |
| JobQueue.Database.FirstReady | rootfs/usr/lib/rougarou/jobs.py:179-180 | a first ready job in the order (ready, created), or none if and only if none is ready |
| JobQueue.Database.Claim | rootfs/usr/lib/rougarou/jobs.py:177-185 | starts a first ready job, or changes nothing when none is ready |
| JobQueue.Database.Acknowledge | rootfs/usr/lib/rougarou/jobs.py:144-166 | records exactly the outstanding rows, oldest first, and returns them, or refuses |
| JobQueue.Database.Recover | rootfs/usr/lib/rougarou/jobs.py:169-174 | finishes each running job once |
| JobQueue.Database.Snapshot | rootfs/usr/lib/rougarou/jobs.py:363-387 | the number of jobs and of jobs needing review, for exactly the states that have any |
| JobQueue.Database.PrepareRestored | rootfs/usr/lib/rougarou/backup.py:399-421 | interrupts every pending job and disables every schedule of a restored copy |
| JobQueue.Database.Rows | rootfs/usr/lib/rougarou/jobs.py:153-158 | the rows of a query, each once, oldest first |
| Answers.SubmittedIff | rootfs/usr/lib/rougarou/jobs.py:101-115 | a request is taken if and only if directory, timeout (1 to 604800) and delay (0 to 31536000) are in order; the job is ready from the end of the delay on |
| Answers.CancelledIff | rootfs/usr/lib/rougarou/jobs.py:118-141 | exactly queued and running jobs can be cancelled, and ending an ended job changes nothing |
| Answers.OrderIs | rootfs/usr/lib/rougarou/jobs.py:157-158 | rows come by time, and by the first character in which their ids differ |
| Answers.ReviewsAre | rootfs/usr/lib/rougarou/jobs.py:159-166 | reviewing leaves exactly the outcome and time of each listed job and one event each that says so |
| Answers.CountsAreOfAll | rootfs/usr/lib/rougarou/jobs.py:370-380 | the counts of the states add up to all jobs |
| Answers.RestoredRowsAre | rootfs/usr/lib/rougarou/backup.py:399-421 | every row of a prepared copy: queued and running jobs interrupted with their reason, everything else as it was |
| History.SubmitKeeps | rootfs/usr/lib/rougarou/jobs.py:101-115 | after a submission replaying the log still gives exactly the stored state of every job |
| History.FinishKeeps | rootfs/usr/lib/rougarou/jobs.py:118-127 | so it does after the end of a running job |
| History.CancelKeeps | rootfs/usr/lib/rougarou/jobs.py:130-141 | and after a cancellation |
| History.ClaimKeeps | rootfs/usr/lib/rougarou/jobs.py:177-185 | and after a claim |
| History.RecoveredKeeps | rootfs/usr/lib/rougarou/jobs.py:169-174 | recovery ends each running job once, as lost or as cancelled when that was asked, and changes nothing else |
| History.HappensOnce | rootfs/usr/lib/rougarou/jobs.py:89-91 | a faithful log has at most one running and one terminal event per job, and the latter names the outcome |
| History.CancelIsLogged | rootfs/usr/lib/rougarou/jobs.py:139-141 | a pending cancellation is in the log, and only an interruption forgets one |
| History.CancelledMeansAsked | rootfs/usr/lib/rougarou/jobs.py:123-127 | a job that ran ends cancelled exactly when the request is in the log, unless interrupted |
| History.AttentionIsConserved | rootfs/usr/lib/rougarou/jobs.py:375-380 | attention plus acknowledgments equals the failed, timed-out and interrupted jobs |
| History.AllAcknowledgedKeeps | rootfs/usr/lib/rougarou/jobs.py:159-166 | reviewing listed rows records exactly them, logs one event each in order, touches no job |
| History.AcknowledgeAllEmptiesAttention | rootfs/usr/lib/rougarou/jobs.py:144-166 | acknowledging everything empties attention, keeps every count and repeats as a no-op |
| History.RestoredCopyIsInert | rootfs/usr/lib/rougarou/backup.py:411-421 | nothing pending or enabled is left; finished jobs and the old log are untouched; exactly one interrupted event per formerly pending job; the log is again faithful |
| Progress.EvolvesOnwards | rootfs/usr/lib/rougarou/jobs.py:121-122 | what each transaction preserves of jobs, log, reviews, links and tasks composes |
| Progress.TestedStays | rootfs/usr/lib/rougarou/tasks.py:242-243 | a tested revision stays tested, because outcomes are final |
| Execution.StreamThen | rootfs/usr/lib/rougarou/jobs.py:269-273 | each poll adds its chunk to the stream until end of file |
| Execution.Append | rootfs/usr/lib/rougarou/jobs.py:274-280 | writing a chunk keeps the log the capped form of the stream so far |
| Execution.Execute | rootfs/usr/lib/rougarou/jobs.py:243-298 | outcome, reason and exit code are those of a raised error, else of the first request, stop or passed deadline up to the last turn, else of the exit status; the log is the first 16777216 bytes of the output and one notice exactly if some were dropped |
| Execution.SucceededIffClean | rootfs/usr/lib/rougarou/jobs.py:255-293 | succeeded if and only if it breaks on exit 0 with no trigger seen and nothing raised |
| Execution.CancelledIffSeenFirst | rootfs/usr/lib/rougarou/jobs.py:254-266 | cancelled by the loop if and only if a recorded request is the first trigger it sees |
| Outcomes.OutcomeIff | rootfs/usr/lib/rougarou/jobs.py:254-298 | each of the five outcomes, if and only if: what the first turn with a request, stop or deadline saw, or the exit status without one, or a raised error |
| Execution.RunJob | rootfs/usr/lib/rougarou/jobs.py:224-305 | one job from start to its terminal transaction |
| Scheduler.Save | rootfs/usr/lib/rougarou/tasks.py:145-160 | a new name starts paused at revision 1, an edit needs a paused task and makes a new revision, names are never reused |
| Scheduler.Enqueue | rootfs/usr/lib/rougarou/tasks.py:183-202 | queues one linked run of the current revision unless paused, not ready or already active |
| Scheduler.Enable | rootfs/usr/lib/rougarou/tasks.py:239-258 | only a revision with a successful linked run is enabled; a failing timer disables again |
| Scheduler.Pause | rootfs/usr/lib/rougarou/tasks.py:261-274 | disables first, removes only after the timer is stopped |
| Schedules.SavedIff | rootfs/usr/lib/rougarou/tasks.py:145-160 | when saving is taken, and the row it leaves |
| Schedules.EnqueuedIff | rootfs/usr/lib/rougarou/tasks.py:183-202 | when a run or a firing queues a job, and the one job and link it leaves |
| Schedules.EnabledIff | rootfs/usr/lib/rougarou/tasks.py:239-258 | when enabling is taken, and what a failing timer leaves |
| Schedules.PausedIff | rootfs/usr/lib/rougarou/tasks.py:261-274 | when pausing or removing is taken, and what it leaves |
| Notifier.StepKeeps | rootfs/usr/lib/rougarou/notifications.py:189-217 | every step of a check, failed send or crash keeps the delivery invariant |
| Notifier.GrowthKeeps | rootfs/usr/lib/rougarou/notifications.py:204-208 | the log growing under a running check disturbs nothing |
| Notifier.FirstRowsArePending | rootfs/usr/lib/rougarou/notifications.py:206-208 | a batch holds everything that asks for attention from the cursor up to its last row |
| Notifier.ResetNeverFires | rootfs/usr/lib/rougarou/notifications.py:200-203 | the skipping branch is not taken while the queue is not replaced |
| Notifier.DeliveryTheorem | rootfs/usr/lib/rougarou/notifications.py:189-217 | in every run everything between start and cursor was accepted, in log order, and nothing older |
| Notifier.OnlyTheEventInFlightRepeats | rootfs/usr/lib/rougarou/notifications.py:209-214 | what is about to be sent was accepted before only if it is the latest acceptance and the first event past the cursor |
| Notifier.SettledIsSettled | rootfs/usr/lib/rougarou/notifications.py:212-217 | the cursor never goes back and nothing at or below it is sent again |
| Notifier.OncePerJob | rootfs/usr/lib/rougarou/notifications.py:206-208 | with a faithful log each accepted event is of a different job |
| ReplacedQueue.ReplacedQueueTheorem | rootfs/usr/lib/rougarou/notifications.py:199-217 | over another log, growing and crashing at will, exactly the attention events past one number are sent, in order; which number, by what the deciding reading says |
| ReplacedQueue.UnseenCopySkips | rootfs/usr/lib/rougarou/notifications.py:199-217 | a log the old cursor fits: nothing up to that cursor is ever sent, everything later is |
| ReplacedQueue.OtherQueueIsSkipped | rootfs/usr/lib/rougarou/notifications.py:199-203 | a log with another first job: what it held at the deciding reading is never sent, everything later is |
| ReplacedQueue.RestoredCopySkips | rootfs/usr/lib/rougarou/notifications.py:199-217 | a restored and prepared copy whose interrupted job is reported in no run |
| ReplacedQueue.CopyIsChecked | rootfs/usr/lib/rougarou/notifications.py:189-217 | a check of that copy gets to its end without sending anything |
| Notifier.Checker.Check | rootfs/usr/lib/rougarou/notifications.py:189-217 | `check` is a run of the steps and, unless it fails, gets to the position it read or through a full batch; without a state it starts from the end of the log, with an unreadable one it sends nothing |
| Notifier.Checker.SendRows | rootfs/usr/lib/rougarou/notifications.py:209-217 | saves the cursor after every send and moves to the position after a short batch |
| Notifier.Checker.Configure | rootfs/usr/lib/rougarou/notifications.py:260-262 | starts from the present end of the log |
| Attention.StartIsAnEnd | rootfs/usr/lib/rougarou/notifications.py:189-198 | over every run, notification starts at the end the log had when it was configured or, without a state, first checked |
| Attention.ExactlyTheBadAreTaken | rootfs/usr/lib/rougarou/notifications.py:204-217 | over every run of the notifier: between start and cursor exactly the events `failed`, `timed_out` and `interrupted` were accepted |
| OperatorSystem.QueueStepKeeps | rootfs/usr/lib/rougarou/jobs.py:77-86 | any queue transaction keeps the scheduler's and the notifier's guarantees |
| OperatorSystem.FinishingKeeps | rootfs/usr/lib/rougarou/jobs.py:224-305 | the worker ending its job keeps the invariant, with the ledger of what it saw |
| OperatorSystem.QueueingKeeps | rootfs/usr/lib/rougarou/tasks.py:192-202 | so does queueing a linked run |
| OperatorSystem.StepKeeps | rootfs/usr/lib/rougarou/jobs.py:308-341 | the invariant of the whole system survives every step of everybody |
| OperatorSystem.RunKeeps | rootfs/usr/lib/rougarou/jobs.py:308-341 | and so every run |
| OperatorTheorems.NothingIsTakenBack | rootfs/usr/lib/rougarou/jobs.py:121-122 | over any run the log only grows and no job is changed in what it asks, run twice or moved out of its outcome |
| OperatorTheorems.LogIsFaithful | rootfs/usr/lib/rougarou/jobs.py:77-185 | in every reachable state replaying the log gives each job's stored state, flag and review, with one running and one terminal event at most |
| OperatorTheorems.SucceededMeansClean | rootfs/usr/lib/rougarou/jobs.py:288-293 | recorded as succeeded only after a clean exit 0 with no cancellation, stop or deadline seen |
| OperatorTheorems.CancelledIffAsked | rootfs/usr/lib/rougarou/jobs.py:118-141 | a finished job is cancelled if and only if the operator asked before its end, or it never ran |
| OperatorTheorems.AttentionBalances | rootfs/usr/lib/rougarou/jobs.py:363-387 | attention is conserved in every reachable state and reviews record the outcome they reviewed |
| OperatorTheorems.NoUntestedFiring | rootfs/usr/lib/rougarou/tasks.py:183-202 | a job a timer queued is its revision's definition in the directory resolved for it, and so is an earlier run of that revision that had succeeded cleanly before |
| Firings.EveryFiringHasAStep | rootfs/usr/lib/rougarou/tasks.py:183-202 | every job on the record of firings was queued by a timer's step |
| Firings.DirOfFiring | rootfs/usr/lib/rougarou/jobs.py:101-103 | the directory on record for it is the one its stored path resolved to at that step |
| Firings.FiredRunIsTheDefinitionIff | rootfs/usr/lib/rougarou/tasks.py:192-202 | for every run and fired job: it is the stored definition if and only if the path resolved to itself at the firing, and the tested job if and only if it resolved as for the test |
| Firings.ResolutionCanMoveAFiring | rootfs/usr/lib/rougarou/tasks.py:192-202 | a run of saving, testing, enabling and firing in which the fired job lands in another directory |
| Commands.EnqueueIsARun | rootfs/usr/lib/rougarou/tasks.py:183-202 | what `Enqueue` does, refusals included, is a run of the system's steps that changes nothing else |
| Commands.EnableIsARun | rootfs/usr/lib/rougarou/tasks.py:239-258 | so is what `Enable` does |
| Commands.PauseIsARun | rootfs/usr/lib/rougarou/tasks.py:261-274 | and what `Pause` does |
| Commands.RecoverIsARun | rootfs/usr/lib/rougarou/jobs.py:169-174 | and what a starting worker's `Recover` does |
| Commands.RunJobIsARun | rootfs/usr/lib/rougarou/jobs.py:224-305 | and what `RunJob` does to a claimed job, turn by turn |
| OperatorTheorems.EnabledMeansTested | rootfs/usr/lib/rougarou/tasks.py:239-258 | enabled implies not removed and a succeeded run of the current revision, through edits, pauses, failures and crashes |
| OperatorTheorems.OneActiveRunPerTask | rootfs/usr/lib/rougarou/tasks.py:192-197 | at most one run linked to a task is queued or running |
| OperatorTheorems.OneJobAtATime | rootfs/usr/lib/rougarou/jobs.py:319-336 | at most one job runs, and it is the worker's |
| OperatorTheorems.NotificationsAreDelivered | rootfs/usr/lib/rougarou/notifications.py:189-217 | the delivery guarantees hold beside everything else, each accepted event of its own job |
| Attention.NoBadJobGoesUnreported | rootfs/usr/lib/rougarou/notifications.py:204-217 | in the whole system every job stored as failed, timed out or interrupted has its event, and that was accepted if it lies between start and cursor |
| Attention.NothingElseIsReported | rootfs/usr/lib/rougarou/notifications.py:204-217 | whatever was accepted is the end of such a job |
| Lives.EveryChangeHasACause | rootfs/usr/lib/rougarou/jobs.py:101-185 | a step changes at most one job, with one event: a start that is due, a request to stop, a withdrawal, a loss, or an end by what the worker saw |
| Lives.EveryJobWasAskedFor | rootfs/usr/lib/rougarou/jobs.py:101-115 | in every run each job is what some submission, retry or schedule asked for, ready when its delay ends |
| Lives.EveryStartWasDue | rootfs/usr/lib/rougarou/jobs.py:177-185 | in every run each started job was claimed at its start, not before it was ready |
| Lives.EveryEndHasACause | rootfs/usr/lib/rougarou/jobs.py:118-141 | in every run each ended job was withdrawn, lost, or ended with the outcome, reason and exit code of its run |
| Schedules.RowsAreAsSaved | rootfs/usr/lib/rougarou/tasks.py:145-160 | in every run each schedule has the calendar, catch-up and work of its last saving, and its revision counts the savings |
| Schedules.EnabledIsOnSince | rootfs/usr/lib/rougarou/tasks.py:239-258 | in every run an enabled schedule was switched on by an enabling that nothing undid since |
| Fairness.RankFalls | rootfs/usr/lib/rougarou/jobs.py:177-185 | once its ready time has passed, no step adds a job ahead of a waiting one and each claim of another removes one |
| Fairness.NoStarvation | rootfs/usr/lib/rougarou/jobs.py:101-115 | so the jobs ranked before it at the start bound how often it is overtaken in any run |
| RestoredSystem.RestoredSystemIsSound | rootfs/usr/lib/rougarou/backup.py:399-421 | whatever moment was backed up, every invariant holds of the prepared copy |
| RestoredSystem.RestoredSystemIsDead | rootfs/usr/lib/rougarou/backup.py:399-421 | in every run of it without an explicit act of the operator no timer fires and no job changes |

## Left out

- MonotoneAvailability: promised for publications visible up to the pointer's own last switch; a channel that was not switched since keeps its older directory, so later publications of the other channel are not in it.
- OverlayTheorem: the records may come in any order of the overlay's names; the source sorts them.
- Claim: breaks exact ties arbitrarily, as the source does.
- Execute: an exception takes effect between two turns of the loop; one in the middle of a turn loses at most that turn's log bytes. The escalation to SIGKILL and reaping change no outcome and are not modelled.
- Promote: approval flag and evidence document are one Boolean; the record of the promotion is any text. The order of the files, which the directory listing gives, and the result of the compressor are its inputs.
- VerifyDirectory: signatures are left to GnuPG and the date `Valid-Until` is not compared with a clock, so nothing expires; the checks of the signer's key and home directory are not modelled either.
- ReleaseIs: the dates and the list of architectures are inputs; the source takes them from the clock and the index.
- Snapshot: the manifest is any text that names the snapshot; writing the staged directory is one step, since it becomes visible by one rename.
- RunJobIsARun: for turns that all see the cancellation flag as it is; a request in between is a step of its own in the system, and `OperatorSystem.StepKeeps` covers it.
- NoStarvation: a submission may read the clock before its transaction; the bound needs these readings past the job's ready time, as the source gives no order between the reading and the lock.
- ResolutionStaysInside: resolution takes any number of steps instead of the kernel's limit on links.
- Saving a task's history lines (`scheduled_events`), the worker's heartbeat row and schema migration: they influence no transition.
- SQLite, file locks, `fsync`, permissions, ownership and temporary directories: a transaction is atomic, a held lock excludes.
- `int(x, 16)` and `isdigit` accept more than hexadecimal and ASCII digits; the model takes digits only.
- Links inside a package repository (the resolve check in `package_path`): trees hold plain files. File sizes count one byte per character.
- The splitting of the installer template file: the three texts are given. That the output is not the original file is checked on paths and not modelled.
- Calendar expressions, unit files and the readiness checks of a task are oracles of the scheduler.
- Health alerts, webhook payloads and configuration parsing in notifications: only the queue cursor is modelled. After a restore the notifier starts fresh.
- The guided update transaction, source policy, command-line parsing and user interface: foreign tools and easy claims.
