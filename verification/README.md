# Cleanslate: the slate store and its boot hook

This project models cleanslate's store of btrfs subvolumes, the initramfs hook that prepares the
root at every boot, and the commands that fork, checkpoint, roll back, reset and discard slates. It
proves what the design promises of them over whole runs: work survives rollbacks and power
losses, rollbacks can be rolled back, the baseline is always reachable, the running root is not
removed while its boot record is intact, checkpoint numbers keep their meaning, and a forked slate
boots.

## How it is built

- `Text`, `Sorting`, `Decimal`: splitting, words, text order; sorting a set; zero-padded numbers
  in decimal and under the octal rule of section 2.6.4 of POSIX.1-2017 XCU.
- `Names`, `Staged`, `Config`, `Entries`, `EntryLaws`, `EntryFile`: the text the Go program and
  the shell hook exchange, each side's reader and writer, and when the two agree. Boot entries
  are those of section "Type #1 Boot Loader Specification Entries" of the UAPI.1 Boot Loader
  Specification.
- `Store`: subvolumes by path, the btrfs commands as atomic steps that may fail, deletion.
- `Checkpoints`, `Pruning`: listing, lookup, numbering and retention, in Go and in the hook.
- `Hook`: a boot as the list of store contents after each command that changed it, under any
  choice of failing commands, and the script as methods on a mutable store proved to make
  exactly those changes. `HookSafety` and `BootSpec` say what every such state keeps and what a
  faultless boot gives.
- `Ops`, `OpsLaws`: the commands in the same two forms.
- `Machine`, `Steps`, `Runs`, `Reversal`, `Forks`, `RunningRoot`, `Image`: the machine with its
  boots, power losses, workload and commands; one step; whole runs; the built image.
- `Outcomes`: what boots and commands come to, stated of stores, records and refusals.
- `Faults`: boots in which commands fail, and where the hook turns back.
- `Formats`: the exchanged texts and fixed names, spelled out.
- `Shortfalls`: inputs on which a promise fails.

A run is a list of steps. A step is an event with its faults, and optionally a number of store
changes after which power fails; the store is then as after that prefix of the event's changes.
Boots happen with the machine off, everything else with it up. The slate's *content* in the
statements about rollback is its own files: a snapshot does not descend into nested subvolumes
while deletion takes them along, and `Reversal.RollbackRestoresTree` says what that costs.

## Assumptions

- The hook's `$((_last + 1))` is read in decimal, as intended and as Go does
  (`Checkpoints.HookNext`). A shell that follows the octal rule differs:
  `Checkpoints.PosixNumbersAgree` says exactly when, `Shortfalls.EightIsNoOctal` gives a store.
  `retain_auto` is read in decimal too.
- `btrfs subvolume list -o` that succeeds lists all descendants; `delete -R` removes a whole tree
  or fails; a plain delete fails when something is nested, and else only if declared stuck.
- A file write or removal is one step, except that the staged file is emptied before it is
  written. Removing the staged file may fail.
- The kernel command line is the entry's options, joined by spaces.
- The kernel mounts the subvolume the hook prepared.
- Commands run one after the other.
- `Runs.Roomy` asks of each boot of the slate that prunes for `retain_auto` of at least 1 and that
  the numbers it takes stay below 10000; without it the newest checkpoint can be pruned
  (`BootSpec.TakenCkptStaysIff`, `Pruning.HookDropsNewest`).
- Steps that change nothing, such as a refused discard or a boot that cannot start, are not
  excluded from any run.

## Where the code falls short

Where code and documentation differ the model follows the code:

- A staged file is not removed with its slate, so a slate forked anew under that name is replaced
  at its first boot if the source exists (`Forks.StaleResetHitsFork`; exactly when, `Forks.ForkBoots`).
- A staged file naming one subvolume as slate and source makes the boot panic after deleting it
  (`BootSpec.SelfStagedPanics`); no command writes one, so no reachable state has it.
- A boot record with the slate's name but without basis or mode lets `discard` remove the running
  root (`Shortfalls.ImageLosesRoot`; exactly when, `RunningRoot.RunningRootNeverRemoved`).
- The hook reads the last `subvol=` of a field and the rewriter replaces the first
  (`EntryLaws.HookMissesSecondSubvol`).
- Rewriting an entry twice can drop a carriage return more (`EntryFile.RewriteTwiceFails`).
- Go takes the first retention value and the hook the last; Go turns checkpoints off on any
  "off" and the hook on the last (`Shortfalls.RetentionsDiffer`, `Shortfalls.SwitchesDiffer`; exactly
  when, `Config.RetainCompared`, `Config.AutoCompared`). Blanks before a setting hide it from the hook
  alone (`Formats.BlanksBeforeSettings`).
- `retain_auto=0` prunes the checkpoint just taken, and its number or a smaller one is given again
  (`BootSpec.RetainZeroReuses`; exactly then, `BootSpec.TakenCkptStaysIff`).
- From 10000 on text order is not number order, and the hook can prune the newest checkpoint
  (`Shortfalls.HookDropsTenThousand`; exactly when, `Pruning.DropsAgreeIff`).
- A slate whose name is a number can be passed over for a checkpoint as the source of a fork
  (`Shortfalls.FiveForksCheckpoint`), and the slate called `current`, a legal name, for the one that
  runs (`Shortfalls.CurrentForksAnother`, `Forks.CurrentForksRunning`); for every slate's name,
  exactly when, `OpsLaws.SlateAsSource`; written with its at sign it is never passed over
  (`OpsLaws.SlateWithAtSign`).
- Subvolumes a workload nests in a slate can look like checkpoints
  (`Checkpoints.LookAlikesPrintAlike`; exactly when, `Checkpoints.LookupInvertsExactly`); for
  checkpoints of slates lookup never fails (`Runs.RefsIdentify`).
- Discarding `main` with its boot entry removes the entry later forks are cloned from; forks then
  report an error after making the slate, for good (`Forks.DiscardedTemplateBlocksForks`,
  `Forks.NoEntryWithoutTemplate`; exactly when, `Forks.ForkGetsItsEntry`).

## Model

| member | source | states |
|---|---|---|
| Image.InitialInv | scripts/relayout.sh:169-198 | the machine as built (three boot entries, sealed baseline, no slate) satisfies the invariant every run starts from |
| Image.FirstBoot | scripts/relayout.sh:185-189 | the first boot of the built image creates `main` from the baseline, checkpoints it and runs it |
| Runs.RunKeepsInv | mkosi.extra/etc/initramfs-tools/scripts/local-top/cleanslate-state:54-421 | every state reached by any sequence of boots, power losses between any two store changes, failing commands, workload writes and commands satisfies the invariant: read-only checkpoints with unique numbers, baseline sealed, entries that boot what their name says, true boot record |
| Image.BaselineIsImmortal | internal/slate/slate.go:97-119 | in every state reachable from the image `@baseline` is present, read-only, with the baked content, and no slate entry, checkpoint or staged target names a reserved subvolume |
| Runs.NoWorkLost | mkosi.extra/etc/initramfs-tools/scripts/local-top/cleanslate-state:310-358 | over any run in which no step removes part of the slate by a discard or writes to it from the workload (a refused command is no such step), its files stay on it or in one of its kept checkpoints, whatever boots, fails, is staged or is cut short |
| Runs.ReplacedWorkIsKept | mkosi.extra/etc/initramfs-tools/scripts/local-top/cleanslate-state:336-355 | if a boot, with any faults and cut anywhere, changes or removes a slate, the files it held are in a kept checkpoint in every later state until the slate is discarded |
| Runs.KeptForGood | internal/slate/ops.go:89-113 | what a kept checkpoint holds is held in every later state until its slate is discarded |
| Reversal.RollbackIsReversible | internal/slate/ops.go:56-65 | after a rollback and a faultless boot the slate has the checkpoint's files; after any later run without a discard, rolling back to the kept checkpoint that boot made gives exactly what the slate held before |
| Reversal.KeptRollsBack | internal/slate/checkpoint.go:98-125 | however much later, a kept checkpoint is still there to roll back to and its rollback gives exactly its files |
| Reversal.RollbackRestores | mkosi.extra/etc/initramfs-tools/scripts/local-top/cleanslate-state:310-358 | rollback to a listed checkpoint, reboot without faults: its files on the slate, nothing nested, nothing staged, the old files in a kept checkpoint that did not exist before |
| Reversal.ResetGivesBaseline | internal/slate/ops.go:67-82 | reset of a named existing slate and a faultless boot give exactly the baked content, with the old files kept, in every reachable state |
| Outcomes.ResetOfRunning | cmd/cli/slates.go:336-344 | a reset that names no slate, on a slate's boot, gives that slate exactly the baked content at the next boot, with the old files kept |
| Outcomes.RollbackByNumber | cmd/cli/slates.go:224-228 | a rollback by a bare number is of the slate that runs |
| Runs.StagedSourceSurvives | mkosi.extra/etc/initramfs-tools/scripts/local-top/cleanslate-state:284-294 | a staged replacement and its source checkpoint, an automatic one too, are unchanged after any run that does not boot or discard that slate or stage anything |
| Reversal.StagedRollbackApplies | mkosi.extra/etc/initramfs-tools/scripts/local-top/cleanslate-state:315-321 | such a rollback takes effect at the slate's next faultless boot, however many other boots and prunings come first |
| Reversal.InterruptedReplacement | mkosi.extra/etc/initramfs-tools/scripts/local-top/cleanslate-state:304-308 | a boot stopped while the slate is deleted, its unlinking having worked, leaves it missing and nothing staged; the next faultless boot gives the baseline's files with the work in a kept checkpoint |
| Reversal.SlateBoots | mkosi.extra/etc/initramfs-tools/scripts/local-top/cleanslate-state:396-419 | from every reachable state every slate entry, stale or not, boots without panic to the files of the specification |
| Reversal.ModesBoot | mkosi.extra/etc/initramfs-tools/scripts/local-top/cleanslate-state:364-394 | from every reachable state the scratch entry boots a writable copy of the baked content and the rescue entry the baseline with the store unchanged |
| Runs.NumbersNeverReused | internal/slate/checkpoint.go:252-264 | if every boot of the slate with automatic checkpoints on retains at least one and takes no number from 10000 up, its largest number never falls and a number in use is never given to another checkpoint, until a discard takes part of the slate |
| Runs.RefsIdentify | internal/slate/checkpoint.go:98-125 | in every reachable state a slate and number name one checkpoint, found from its printed reference and full name whatever the default slate and from its bare number when its slate is the default |
| Runs.RefsKeepTheirMeaning | internal/slate/checkpoint.go:53-57 | under the same condition a reference never comes to name a different checkpoint or different files |
| RunningRoot.RunningRootNeverRemoved | internal/slate/ops.go:99-101 | no command can remove the mounted root exactly when the root is no slate or the boot record lacks the slate's name or has both basis and mode |
| RunningRoot.RootStaysMounted | internal/slate/booted.go:55-60 | through a whole session with such a record the root stays in the store |
| Forks.ForkBoots | internal/slate/ops.go:13-27 | with the template entry there, a fork under a new name from a source that is there boots the files of its source after any run that leaves it alone, unless a replacement staged for its name applies, and then it boots that replacement |
| Outcomes.ForkOfCheckpoint | internal/slate/ops.go:45-48 | a fork from a checkpoint of a slate, by its printed reference or its full name, makes the slate with exactly the checkpoint's files |
| Outcomes.ForkOfCheckpointBoots | internal/slate/ops.go:45-48 | and boots them, if nothing is staged for its name then or later |
| Outcomes.ForkOfRunning | internal/slate/ops.go:32-41 | a fork without a source, on a slate's boot, copies that slate |
| Forks.ForkBootsUnstaged | internal/slate/ops.go:13-27 | if nothing is staged for its name at the fork and nothing is afterwards, it boots its source's files |
| Image.TwoSlatesReached | cmd/cli/slates.go:261-276 | states reached from the image, by a fork on the first boot and by a switch after it, from which the failing runs below start |
| Image.ForkBootsOnImage | internal/slate/bls.go:30-44 | a fork boots its source's files, or the staged replacement that applies to its name, from every state reached from the image without discarding `main` and its entry |
| Image.TemplateLasts | internal/slate/names.go:20-22 | in every such state the template entry is there |
| Forks.ForkGetsItsEntry | internal/slate/bls.go:30-37 | a fork under a new name from a source that is there, nothing failing, makes the slate, and reports no error and has its entry exactly when the template entry is there |
| Forks.ForkSucceeds | cmd/cli/slates.go:261-276 | the exact condition under which the fork command with its entry reports no error |
| Forks.DiscardedTemplateBlocksForks | cmd/cli/slates.go:405-411 | a run where the template is missing: `main` is discarded with its entry from another slate, then a fork makes its slate with an error and no entry |
| Forks.NoEntryWithoutTemplate | internal/slate/bls.go:30-34 | once the template entry is gone no run adds any entry |
| Forks.StaleResetHitsFork | internal/slate/pending.go:79-87 | a run where it applies: reset, discard, fork anew under the same name, boot: the fork holds the baseline, because discarding leaves the staged file |
| Runs.PowerFailsAfter | mkosi.extra/etc/initramfs-tools/scripts/local-top/cleanslate-state:296-308 | power that fails after k changes of the store leaves it as after exactly those, with nothing running |
| Steps.TrailKeeps | mkosi.extra/etc/initramfs-tools/scripts/local-top/cleanslate-state:54-421 | each single store change of each event keeps the invariant, and for every slate its kept checkpoints, its work, its numbers and what is staged for it |
| BootSpec.BootMeetsSpec | mkosi.extra/etc/initramfs-tools/scripts/local-top/cleanslate-state:209-220 | for any sound store and any staged text, a faultless persistent boot panics exactly when the staged file names the slate itself as source; otherwise it gives the staged source's files if that applies, else the slate's, else the baseline's |
| BootSpec.SelfStagedPanics | mkosi.extra/etc/initramfs-tools/scripts/local-top/cleanslate-state:346-355 | a concrete staged file on which the boot panics |
| Outcomes.ScratchBootOfBasis | mkosi.extra/etc/initramfs-tools/scripts/local-top/cleanslate-state:364-394 | a faultless scratch boot copies the basis the command line names exactly when it is well-formed, there, and neither the scratch root nor the host identity, and the baseline otherwise; the record says which, and that it differs from what was asked for just then |
| Outcomes.SlateBootRecorded | mkosi.extra/etc/initramfs-tools/scripts/local-top/cleanslate-state:418 | a slate's faultless boot is on record with its name, mode and subvolume, and with the checkpoint it took, which is there and holds the slate's files, or with "disabled" |
| Outcomes.ScratchRecorded | mkosi.extra/etc/initramfs-tools/scripts/local-top/cleanslate-state:394 | a scratch boot is on record as such, of the baseline |
| Outcomes.RescueRecorded | mkosi.extra/etc/initramfs-tools/scripts/local-top/cleanslate-state:130-135 | so is a rescue boot, which leaves the store unchanged |
| Outcomes.RescueRefuses | internal/slate/ops.go:37-39 | after a rescue boot a fork without a source, a checkpoint and a reset without a name are refused |
| Outcomes.ScratchForksBaseline | cmd/cli/slates.go:145-147 | after a scratch boot a fork without a source gets the baked files; a checkpoint and a reset without a name are refused |
| Outcomes.RecordFromEntry | internal/slate/booted.go:94-113 | when the slate's name was not written, the command line of each owned entry gives name, mode and basis |
| Outcomes.RecordWithoutMode | internal/slate/booted.go:83-85 | a record without a mode is of an unknown one |
| BootSpec.ScratchMeetsSpec | mkosi.extra/etc/initramfs-tools/scripts/local-top/cleanslate-state:364-392 | a faultless scratch boot never panics and makes `@runtime` a writable copy of the checked basis |
| Faults.SlateBootPanics | mkosi.extra/etc/initramfs-tools/scripts/local-top/cleanslate-state:209-220 | with any faults a slate's boot panics exactly when the missing slate cannot be made, or when a replacement already checkpointed cannot delete the slate or make it anew or is its own source; a failing checkpoint or pruning never stops it |
| Faults.ScratchPanics | mkosi.extra/etc/initramfs-tools/scripts/local-top/cleanslate-state:382-392 | a scratch boot panics exactly when the old scratch root cannot be deleted or the new one not be made |
| Faults.KeptFromTheStart | mkosi.extra/etc/initramfs-tools/scripts/local-top/cleanslate-state:336-344 | in every state a boot that replaces the slate passes through, the old files are in the kept checkpoint |
| Faults.KeepFailureCallsOff | mkosi.extra/etc/initramfs-tools/scripts/local-top/cleanslate-state:336-342 | if that checkpoint fails the slate boots its own files and the staged file goes |
| Faults.UnlinkFailureKeepsStage | mkosi.extra/etc/initramfs-tools/scripts/local-top/cleanslate-state:344 | if unlinking fails the staged file stays through the boot |
| Faults.AutoFailureOnRecord | mkosi.extra/etc/initramfs-tools/scripts/local-top/cleanslate-state:274-281 | if the automatic checkpoint fails the boot goes on and none is on record |
| Faults.HookTurnsBack | mkosi.extra/etc/initramfs-tools/scripts/local-top/cleanslate-state:124-186 | without a subvolume, on a rescue boot, without the baseline and for a malformed subvolume nothing changes; what is mounted and recorded, or the panic, in each case |
| BootSpec.UnlinkedBeforeDelete | mkosi.extra/etc/initramfs-tools/scripts/local-top/cleanslate-state:344-355 | as long as unlinking works, every state a boot passes through in which the slate is missing has nothing staged, so a replacement is tried once |
| BootSpec.TakenCkptStays | mkosi.extra/etc/initramfs-tools/scripts/local-top/cleanslate-state:408-411 | the automatic checkpoint a boot takes is still there after its pruning, with the slate's files, whatever deletion fails, if one is retained and its number is below 10000 |
| BootSpec.TakenCkptStaysIff | mkosi.extra/etc/initramfs-tools/scripts/local-top/cleanslate-state:284-294 | with deletions working and its number below 10000, it survives its own boot's pruning, and its number is not given again, exactly when the retention is at least one |
| Outcomes.RetainsNewest | mkosi.extra/etc/initramfs-tools/scripts/local-top/cleanslate-state:284-294 | a boot that prunes leaves the newest automatic checkpoints, its own included, as many as are to be retained or all there are |
| Outcomes.TenRetained | internal/slate/checkpoint.go:35 | without a settings file those are ten |
| BootSpec.FirstBootOfSlate | mkosi.extra/etc/initramfs-tools/scripts/local-top/cleanslate-state:404-411 | the first boot of a slate that does not exist leaves the store with the slate made from the baseline, its checkpoint 1, and nothing else changed |
| BootSpec.RetainZeroReuses | mkosi.extra/etc/initramfs-tools/scripts/local-top/cleanslate-state:284-294 | with `retain_auto=0` a boot removes all automatic checkpoints and nothing else, the numbers fall back to the largest kept one, and the number it took or a smaller one is given again |
| HookSafety.PersistentSafe | mkosi.extra/etc/initramfs-tools/scripts/local-top/cleanslate-state:396-416 | every state a persistent boot passes through, with any faults, leaves other slates alone and keeps the kept checkpoints and the slate's work; its numbers only grow if, when the boot prunes, at least one automatic checkpoint is retained and the numbers taken are below 10000 |
| HookSafety.ScratchRunOnly | mkosi.extra/etc/initramfs-tools/scripts/local-top/cleanslate-state:364-392 | every state a scratch boot passes through differs only in `@runtime` and what is nested in it |
| HookSafety.NewestNotDropped | mkosi.extra/etc/initramfs-tools/scripts/local-top/cleanslate-state:284-294 | with retention at least one and the largest number below 10000 the checkpoint that has it is not pruned |
| Hook.BootHook | mkosi.extra/etc/initramfs-tools/scripts/local-top/cleanslate-state:54-421 | the script on the mounted store: its command-by-command changes and its outcome are exactly those of the boot model |
| Hook.EnsureSlate | mkosi.extra/etc/initramfs-tools/scripts/local-top/cleanslate-state:209-220 | creates a missing slate from the baseline or panics |
| Hook.ApplyPending | mkosi.extra/etc/initramfs-tools/scripts/local-top/cleanslate-state:310-358 | applies, skips or drops the staged replacement |
| Hook.KeepThenReplace | mkosi.extra/etc/initramfs-tools/scripts/local-top/cleanslate-state:336-355 | kept snapshot, unlink, delete, re-create, in that order, with the abort when the snapshot fails |
| Hook.Replace | mkosi.extra/etc/initramfs-tools/scripts/local-top/cleanslate-state:346-355 | delete then re-create, panicking when either fails |
| Hook.CheckpointSlate | mkosi.extra/etc/initramfs-tools/scripts/local-top/cleanslate-state:260-282 | automatic snapshot under the next number, its name or nothing |
| Hook.PruneAuto | mkosi.extra/etc/initramfs-tools/scripts/local-top/cleanslate-state:284-294 | deletes the text-sorted automatic checkpoints but for the last ones retained |
| Hook.Scratch | mkosi.extra/etc/initramfs-tools/scripts/local-top/cleanslate-state:364-392 | the scratch branch with its three basis fallbacks |
| Hook.Persistent | mkosi.extra/etc/initramfs-tools/scripts/local-top/cleanslate-state:396-416 | the persistent branch |
| OpsLaws.PruningAgrees | internal/slate/checkpoint.go:189-212 | with numbers below 10000 and one retention count the hook's text-sorted pruning leaves the same store as Go's |
| Pruning.NewestSurvive | mkosi.extra/etc/initramfs-tools/scripts/local-top/cleanslate-state:284-294 | with all numbers of the slate below 10000 the survivors are the newest min(n, retain) automatic checkpoints, older than none dropped; no kept one is dropped |
| Pruning.DropsAgree | mkosi.extra/etc/initramfs-tools/scripts/local-top/cleanslate-state:284-294 | below 10000 the hook drops what Go drops, in the same order |
| Pruning.DropsAgreeIff | mkosi.extra/etc/initramfs-tools/scripts/local-top/cleanslate-state:284-294 | for every retention the hook drops what Go drops exactly when on every two automatic checkpoints the smaller number is at most the larger cut to its length |
| Pruning.HookDropsNewest | mkosi.extra/etc/initramfs-tools/scripts/local-top/cleanslate-state:290 | with checkpoints 9999 and 10000 and retention one the hook drops the newest, Go the oldest |
| Pruning.TextAgainstNumber | internal/slate/checkpoint.go:164 | text order of two checkpoint names of a slate agrees with number order exactly when the smaller number is at most the larger cut to its length |
| Pruning.TextIsNumberBelow10000 | internal/slate/checkpoint.go:164 | below 10000 the names of a slate's checkpoints sort as their numbers do |
| Pruning.TextBreaksAt10000 | internal/slate/checkpoint.go:164 | 9999 sorts after 10000 as text |
| Pruning.PruneSafe | mkosi.extra/etc/initramfs-tools/scripts/local-top/cleanslate-state:284-294 | whatever fails, pruning removes only the chosen automatic checkpoints of its slate |
| Checkpoints.NextNumbersAgree | mkosi.extra/etc/initramfs-tools/scripts/local-top/cleanslate-state:253-258 | glob, sed and sort read the numbers Go reads, and the next number exceeds every one in use and is free in both classes |
| Checkpoints.PosixNumbersAgree | mkosi.extra/etc/initramfs-tools/scripts/local-top/cleanslate-state:257 | under the octal rule of POSIX arithmetic the hook numbers as Go exactly while the newest number is at most 7 or at least 1000 |
| Checkpoints.NextSeq | internal/slate/checkpoint.go:252-264 | one above the largest number listed, of a slate or of all |
| Checkpoints.NextSeqOfHook | mkosi.extra/etc/initramfs-tools/scripts/local-top/cleanslate-state:253-258 | the hook's next number |
| Checkpoints.ListCheckpoints | internal/slate/checkpoint.go:57-93 | exactly the matching checkpoints, sorted by slate and number |
| Checkpoints.FindCheckpoint | internal/slate/checkpoint.go:98-125 | the three forms of reference, the number looked up in the listing |
| Checkpoints.LookupInvertsPrinting | internal/slate/checkpoint.go:53-125 | a checkpoint whose number no other of its slate shares is found from what is printed for it |
| Checkpoints.FoundIsFirst | internal/slate/checkpoint.go:86-91 | of several checkpoints a reference fits, the one whose slate sorts first is found |
| Checkpoints.LookupInvertsExactly | internal/slate/checkpoint.go:98-125 | every listed checkpoint is found from its printed reference exactly when no two listed ones share a slate and a number |
| Checkpoints.LookAlikesPrintAlike | internal/slate/checkpoint.go:37 | two nested subvolumes named like checkpoints that print one reference: no lookup finds both |
| OpsLaws.SlateWithAtSign | internal/slate/ops.go:49-53 | with an at sign before it a slate's name, `current` and numbers too, means the slate if it exists |
| OpsLaws.SlateAsSource | internal/slate/ops.go:31-54 | for every slate name given as fork source: the name `current` means the slate so called exactly when that is the basis of what runs and the boot is no rescue; any other name means its slate exactly when it exists and no checkpoint of any slate carries the number the name spells, else that checkpoint is forked |
| Ops.Fork | internal/slate/ops.go:13-27 | the fork command with its refusals and the boot entry |
| Ops.ResolveForkSource | internal/slate/ops.go:31-54 | running slate, baseline, checkpoint or slate name, in that order |
| Ops.StagePending | internal/slate/pending.go:36-50 | refuses an empty or missing source, else empties and rewrites the staged file |
| Ops.Rollback | cmd/cli/slates.go:217-236 | look up against the running slate, stage |
| Ops.Reset | internal/slate/ops.go:70-82 | stages the baseline for an existing slate |
| Ops.CreateCheckpoint | internal/slate/checkpoint.go:134-176 | name, completeness and existence checks, then a read-only snapshot under the next number |
| Ops.Checkpoint | cmd/cli/slates.go:140-170 | only on a persistent boot, always a kept class |
| Ops.NestedIn | internal/slate/nested.go:39-62 | the relative paths of all nested subvolumes, sorted; none when enumeration fails |
| Ops.CheckCapturable | internal/slate/nested.go:67-73 | an error exactly when an enumeration that worked found something nested |
| Ops.Discard | internal/slate/ops.go:89-113 | refuses the running slate, deletes checkpoint by checkpoint and then the slate, stopping at the first failure |
| Ops.DiscardSlate | cmd/cli/slates.go:400-413 | discard, then the boot entry |
| Ops.PruneAuto | internal/slate/checkpoint.go:189-212 | deletes the oldest automatic checkpoints beyond the retention count, of a slate or of all, and counts them up to the first failure |
| Ops.ReadBooted | internal/slate/booted.go:55-113 | boot record if it names a slate, else the command line |
| OpsLaws.RecordTells | internal/slate/booted.go:62-92 | a true record shows the slate as running exactly when the name is missing or basis and mode are both there |
| OpsLaws.HookRecordsTruth | mkosi.extra/etc/initramfs-tools/scripts/local-top/cleanslate-state:113-122 | what the hook writes for a persistent boot is true of it, whichever files are lost |
| OpsLaws.DiscardOnly | internal/slate/ops.go:103-112 | whatever fails, discarding removes nothing outside the slate, its nested subvolumes and its checkpoints |
| OpsLaws.DiscardExact | internal/slate/ops.go:84-113 | when it reports success exactly those are gone |
| OpsLaws.DiscardSucceeds | internal/slate/ops.go:89-101 | with deletions working it succeeds exactly for an existing slate that is not running |
| Outcomes.CheckpointSucceeds | internal/slate/checkpoint.go:134-176 | a checkpoint is made exactly for a slate that is there and in which nothing nested was found, unless an incomplete one is allowed; a failed one changes nothing |
| Outcomes.CheckpointOfRunning | cmd/cli/slates.go:140-170 | on a slate's boot the command does so under the same condition, and the new kept checkpoint has the next number and the slate's files |
| Outcomes.ForkRefusals | internal/slate/ops.go:13-40 | why a fork is refused, in order, with the store unchanged |
| Outcomes.ForkOfNothing | internal/slate/ops.go:49-52 | a name that is no keyword, slate or checkpoint number is refused as a source |
| Outcomes.StageSucceeds | internal/slate/pending.go:36-50 | staging is done exactly for a source that is there |
| Outcomes.ResetRefusals | internal/slate/ops.go:70-76 | why a reset is refused |
| Outcomes.RollbackSucceeds | cmd/cli/slates.go:228-234 | a rollback is done exactly for a reference that finds a checkpoint |
| Outcomes.CheckpointRefusals | internal/slate/checkpoint.go:135-147 | why a checkpoint is refused, and that the nested paths it would miss are named |
| Outcomes.DiscardRefusals | internal/slate/ops.go:89-101 | why a discard is refused |
| Outcomes.DiscardEntry | cmd/cli/slates.go:405-411 | the boot entry goes once the slate is gone, and no other |
| Reversal.CheckpointIsComplete | internal/slate/checkpoint.go:138-142 | a checkpoint made without allowing an incomplete one, after an enumeration that worked, is of a slate with nothing nested |
| Reversal.CheckpointRestoresTree | internal/slate/checkpoint.go:134-176 | a checkpoint the command takes, rolled back to after any later run without a discard, gives back the slate's whole tree exactly when nothing was nested in it, which is so unless an incomplete one was allowed or enumeration failed |
| Reversal.RollbackRestoresTree | internal/slate/nested.go:10-18 | a rollback leaves the checkpoint's files and nothing nested: the whole tree of a store in which the slate had those files exactly when nothing was nested in it there |
| Store.FallbackDeletesTree | internal/slate/btrfs.go:110-117 | deleting every descendant longest path first and then the subvolume removes the tree and nothing else |
| Store.DeleteShrinks | mkosi.extra/etc/initramfs-tools/scripts/local-top/cleanslate-state:191-205 | whatever fails, a deletion removes nothing outside the tree, and the subvolume itself only last |
| Store.DeleteClears | mkosi.extra/etc/initramfs-tools/scripts/local-top/cleanslate-state:191-205 | with nothing stuck, both deletions remove exactly the tree |
| Faults.UnlistedDelete | internal/slate/btrfs.go:110-117 | when the recursive form and the enumeration fail the hook still deletes a subvolume with nothing nested; Go gives up |
| Faults.StuckStays | mkosi.extra/etc/initramfs-tools/scripts/local-top/cleanslate-state:204 | a subvolume whose plain deletion fails stays when the recursive form fails |
| Store.DeleteSubvol | mkosi.extra/etc/initramfs-tools/scripts/local-top/cleanslate-state:191-205 | the hook's deletion, succeeding exactly when the subvolume is gone |
| Store.DeleteRecursive | internal/slate/btrfs.go:103-119 | Go's deletion, which tries nothing when enumeration fails |
| Formats.FixedNames | internal/slate/slate.go:23-27 | the names the design fixes |
| Formats.SlateNames | internal/slate/slate.go:92-119 | a slate's name is letters, digits, dashes and underscores, and none of five words |
| Formats.HookSubvols | mkosi.extra/etc/initramfs-tools/scripts/local-top/cleanslate-state:83-91 | what the hook accepts: an at sign, then name characters and dots, no two dots in a row |
| Formats.CheckpointNames | internal/slate/checkpoint.go:164 | the names of checkpoints 7 and 12345 |
| Names.NameRoundTrip | internal/slate/checkpoint.go:37 | formatting then matching gives back slate, number and class; sed reads the same digits |
| Names.MatchExact | internal/slate/checkpoint.go:37 | the regular expression matches exactly the names of the grammar, with unique groups |
| Names.GlobIsListing | mkosi.extra/etc/initramfs-tools/scripts/local-top/cleanslate-state:286 | among store paths the hook's globs for a slate pick what Go lists for it |
| Names.GlobsIsolate | mkosi.extra/etc/initramfs-tools/scripts/local-top/cleanslate-state:254 | a slate's globs match its own checkpoints and no other slate's, even under a common prefix |
| Names.ValidNameIsValidSubvol | mkosi.extra/etc/initramfs-tools/scripts/local-top/cleanslate-state:83-91 | every name Go accepts passes the hook's check |
| Names.CkptIsValidSubvol | mkosi.extra/etc/initramfs-tools/scripts/local-top/cleanslate-state:77-91 | every checkpoint name passes the hook's check, dots and all |
| HookSafety.FamiliesApart | internal/slate/slate.go:92-119 | no path belongs to two slates |
| Formats.StagedFile | internal/slate/pending.go:47-48 | the three lines of the staged file |
| Staged.StagedRoundTrip | internal/slate/pending.go:47-49 | slate and source read back unchanged, the reason with its newlines as spaces, whatever the reason holds |
| Staged.ReadPending | internal/slate/pending.go:53-77 | on every text Go's loop reads the last values, the ones the hook's sed and tail read |
| Staged.ReadersAgreeOnLines | mkosi.extra/etc/initramfs-tools/scripts/local-top/cleanslate-state:315-317 | the two readers agree on every list of lines |
| Formats.Defaults | internal/slate/checkpoint.go:35 | without a settings file both sides retain ten and checkpoints are on |
| Formats.RetentionLine | mkosi.extra/etc/initramfs-tools/scripts/local-top/cleanslate-state:231-235 | a line that sets the retention is read alike by both sides |
| Formats.NegativeRetention | internal/slate/checkpoint.go:223-225 | a negative retention is no setting for either side |
| Formats.BlanksBeforeSettings | internal/slate/checkpoint.go:222 | blanks around a setting: Go reads it, the hook takes the default |
| Formats.SignedNumbers | internal/slate/checkpoint.go:110 | a signed number reads as the signed number |
| Formats.SwitchLine | mkosi.extra/etc/initramfs-tools/scripts/local-top/cleanslate-state:245-251 | a line that sets the switch is read alike by both sides: four words turn checkpoints off, nothing else does |
| Config.ReadersAgree | internal/slate/checkpoint.go:215-250 | with each key on at most one clean line Go and the hook read the same retention and switch |
| Config.RetainCompared | mkosi.extra/etc/initramfs-tools/scripts/local-top/cleanslate-state:231-235 | on clean text they agree on retention exactly when the first and last number are equal |
| Config.AutoCompared | mkosi.extra/etc/initramfs-tools/scripts/local-top/cleanslate-state:245-251 | on clean text they agree on the switch exactly when an "off" anywhere implies an "off" last |
| Config.RetainAuto | internal/slate/checkpoint.go:215-228 | the first line with a number that is not negative |
| Config.AutoCheckpointEnabled | internal/slate/checkpoint.go:237-250 | off when any line says so |
| Shortfalls.RetentionsDiffer | internal/slate/checkpoint.go:215-228 | a two-line settings file of which Go retains 1 and the hook 2 |
| Shortfalls.SwitchesDiffer | internal/slate/checkpoint.go:237-250 | a two-line settings file that is off for Go and on for the hook |
| Shortfalls.HookDropsTenThousand | mkosi.extra/etc/initramfs-tools/scripts/local-top/cleanslate-state:286-290 | a store on which the two prunings drop different checkpoints |
| Shortfalls.FiveForksCheckpoint | internal/slate/ops.go:45-48 | a store in which forking from the slate called 5 forks the checkpoint 5 of another slate |
| Shortfalls.CurrentForksAnother | internal/slate/ops.go:32-41 | a store with the slate `@current`, a legal name no checkpoint number matches: forking from it while another slate runs forks that one |
| Forks.CurrentForksRunning | internal/slate/ops.go:32-41 | in every reachable state in which another slate runs beside `@current` a fork from `current` gets the files of the one running |
| Shortfalls.EightIsNoOctal | mkosi.extra/etc/initramfs-tools/scripts/local-top/cleanslate-state:257 | a store in which the octal reading does not number as Go does |
| Shortfalls.LostBasisLosesRoot | internal/slate/booted.go:71-82 | from every reachable state with the machine off, a boot that loses the basis fact and then a discard of that slate remove the running root |
| Shortfalls.ImageLosesRoot | internal/slate/ops.go:99-101 | the image's first boot is such a one |
| Decimal.PosixReadsPadded | mkosi.extra/etc/initramfs-tools/scripts/local-top/cleanslate-state:257 | the padded number read as a POSIX constant is the number exactly up to 7 and from 1000 up |
| EntryFile.ForkEntryReads | internal/slate/bls.go:30-44 | from a good template the entry for a valid name is read by the hook as a persistent boot of that slate, by Go as the same subvolume, and is a good template in turn |
| EntryFile.RewriteTwice | internal/slate/bls.go:57-72 | rewriting twice equals the second rewrite alone exactly when no copied line ends in two carriage returns |
| EntryFile.RewriteTwiceFails | internal/slate/bls.go:57-72 | an entry on which it does not |
| EntryFile.LinesKept | internal/slate/bls.go:57-72 | other lines keep text and place; titles are replaced; options lines get exactly the rewritten fields |
| Formats.StagedReasons | internal/slate/ops.go:59-81 | the reasons staged for a rollback and a reset, as they read back |
| Formats.SlashesDropped | mkosi.extra/etc/initramfs-tools/scripts/local-top/cleanslate-state:69-74 | a leading slash of a subvolume or a basis means nothing to the hook |
| Formats.GoCompletes | internal/slate/slate.go:217-222 | Go drops a leading slash and adds a missing at sign |
| Formats.OptionsKey | internal/slate/bls.go:63-66 | an options value follows a space or a tab after the key |
| Formats.WordBreaks | mkosi.extra/etc/initramfs-tools/scripts/local-top/cleanslate-state:54 | words are set apart by spaces, tabs and newlines for the shell; a carriage return breaks words for Go alone |
| Formats.TokenRewritten | internal/slate/bls.go:102-117 | a rootflags field with its subvol part last, before and after |
| Formats.CommandLineWords | mkosi.extra/etc/initramfs-tools/scripts/local-top/cleanslate-state:54-66 | the three words the hook looks for on the command line |
| EntryLaws.RewriteFieldsTwice | internal/slate/bls.go:86-99 | rewriting fields twice equals the second rewrite |
| EntryLaws.RewriteKeepsTheRest | internal/slate/bls.go:86-98 | every other field, and every other part of a rootflags field, keeps value and place |
| EntryLaws.RewriteOptionsTwice | internal/slate/bls.go:77-100 | the same for a whole options line |
| EntryLaws.GoReadsRewritten | internal/slate/slate.go:207-226 | Go reads the new subvolume from any rewritten options line, with several rootflags fields or subvol parts too |
| EntryLaws.HookReadsRewritten | mkosi.extra/etc/initramfs-tools/scripts/local-top/cleanslate-state:54-62 | the hook reads it exactly when the last rootflags field had at most one subvol part or its last one already names it |
| EntryLaws.HookMissesSecondSubvol | internal/slate/bls.go:106-117 | a field with two subvol parts after whose rewrite the hook boots the old one |
| Entries.RewriteBLSEntry | internal/slate/bls.go:57-72 | the line loop |
| Entries.RewriteOptionsLine | internal/slate/bls.go:77-100 | the field loop with the appended flag |
| Entries.ReplaceSubvolToken | internal/slate/bls.go:106-117 | the first subvol part replaced in place, or one appended |
| Entries.ReplacedParts | internal/slate/bls.go:106-117 | exactly the first subvol part changes |
| Entries.ReadCmdline | mkosi.extra/etc/initramfs-tools/scripts/local-top/cleanslate-state:54-74 | the hook's loop over the command line, last value wins |
| Entries.ParseCmdlineSubvol | internal/slate/slate.go:207-226 | Go's loop, first value wins |
| Image.MainEntryOk | scripts/relayout.sh:173-189 | the built entry for the default slate boots it and is a good template |
| Image.ScratchEntryOk | scripts/relayout.sh:191-194 | the scratch entry boots `@runtime` with the baseline as basis, not the slate named to `switch --scratch` |
| Image.RescueEntryOk | scripts/relayout.sh:196-197 | the rescue entry boots the baseline in rescue mode |

## Left out

- Checkpoint sidecars (message and time): nothing but the output reads them.
- Device discovery, temporary mounts, finding the EFI system partition, kernel and loader
  behaviour: environment.
- Output, prompts and confirmation, `status`, `list`, `history`, `switch`, `--reboot`: user
  interface; `List` and `Slates` only filter names for it.
- `Save`, `Delete`, `Current` and `resolveSource`: no command calls them.
- Parsing the output of `btrfs subvolume list`, UUIDs and generations.
- Names on disk that fit the hook's globs but not the checkpoint grammar; the stores modelled hold
  what the tool and workloads inside slates create.
- Snapshots onto an existing path: they fail here, where btrfs would put the snapshot inside; the
  names the tool chooses are proved free.
- Paths with `..` or a plain directory as a fork's source, and a boot record without a basis,
  which would name the filesystem root: they fail here.
- A listing of all subvolumes that fails: the commands then report it and change nothing, or in
  `resolveForkSource` go on to the slate's name.
- The scanner's limit of 64 KiB a line, pathname expansion and `echo` escapes on the command line,
  64-bit overflow of sequence numbers.
- A half-written boot entry.
- The order `sort.Slice` leaves open between two checkpoints of one number.
- Concurrent commands: the code takes no locks.
- HookSafety.PersistentSafe: with automatic checkpoints on, claims growth of numbers only with
  `retain_auto` at least 1 and the numbers taken below 10000; see `BootSpec.TakenCkptStaysIff`.
