# AppOpt: a verified model of the rule editor and its companions

AppOpt is a root daemon that pins Android threads to CPUs as a hand-editable rule file says. This
project models four parts of it in Dafny and proves what they are for.

1. **The rule-file language and its in-place editor** (`config.rs`, `rule_edit.rs`). The loader is a
   line-driven state machine. The editor does not work on the parsed form: a second state machine
   records line positions, and edits splice raw text. The theorems say what the edited text *loads
   to*: exactly the old rules with the intended change.
2. **CPU sets** (`cpuset.rs`, and the spec names shown by `web.rs`): sixteen 64-bit words, their
   canonical range text, and the parsers.
3. **The kernel/user tracking protocol** (`appopt-ebpf`, `ebpf_mode.rs`, `cache.rs`, `rule_match.rs`):
   an interleaved step system with an event queue, and the whitelist of thread names.
4. **The structured tuning configuration** (`tuning.rs`): validating parser, printer, clone.

## How it is built

- A *line* is a string; a *file* is a sequence of lines. `ViewOf` reads a line both as an in-block and
  as an outer line. `Loader.Load` folds the lines into kept rules and a failure count; a file is `Good`
  when the count is 0. `Splice.Rules` are the rules a file holds, in order.
- `Scan.ScanOf` is the editor's scan. `ScanSim` proves that it simulates the loader, `ScanFacts` what
  its records mean, `ScanRange` that they lie in the file.
- An edit is a function from lines to lines (`Normalized`, `Upserted`, `Deleted`, `DeletedPkg`,
  `RenamedPkg`, `Cloned`). `Editor.LineBuffer` and `RuleFiles.RuleFile` are the classes whose methods
  perform the edits in place, loop by loop, and are proved to compute these functions; the theorems are
  about the functions.
- The character level is in `LineShape` (every line is lead + body + tail, and only the body is read),
  `LinePrint` and `LineHeader` (what the editor prints is read as meant), `SpecSwap` to `SpecExact`
  (replacing a spec), `LineRename` and `LineSingle` (renaming a line), `LineReown` to `LineSteady`
  (what a line says after a renaming to any text at all).
- `Written` says what a file in the documented forms loads to, `StrayLines` what every line that does
  not fit costs, `LineMarks` and `EditText` what becomes of comments and of the lines around an edit, and
  `Refusals` when an edit is refused, on files that need not load. Their conditions are about texts,
  the loader's state and its rules, not about the functions by which the edits are specified, and so pin
  those functions from outside; `SpecForms` does the same for CPU specs, `AffinityExact` and
  `EventExact` for the protocol, `TuningExact` for the tuning configuration.
- `CpuSpec` and `CpuRanges` are CPU sets as values, `CpuWords` and `CpuParse` the stored form and the
  parsers. `RuleMatch`, `TaskCache`, `Tracking` and `Dispatcher` are the protocol. `Meaning` ties the
  editor to the daemon.

## What the code needs, and where it falls short

The theorems carry the hypotheses below. Each is shown to be needed: by an if-and-only-if, or by a small
file on which the code does something else.

| hypothesis | where it is stated | why it is needed |
|---|---|---|
| no outer line is a bare `=` | `NoBareEq` | `Limits.ScanAgreesIff` (exact), `Witnesses.BareEqParts` |
| a standalone line that becomes a block header has no comment | `HeaderFree` in `NormalizeSafe`, `InsertSafe` | `Limits.NormalizeGoodIff`, `Limits.InsertedSoundIff` (exact) |
| no `=` behind the closing brace of a rewritten in-block rule | `SwapSafe` in `LastSwapSafe` | `SpecExact.SwapEntryExact` (exact) |
| the package has one package rule, on the line that first names it | `OneSpec` | `UpsertMain.UpsertPackageOnly` (exact) |
| a thread name survives being printed inside a block | `EntryNameOk` in `NamesPrintable`, `InsertSafe` | `LinePrint.EntryLineExact`, `Meaning.NormalizeExactIff` (exact), `Witnesses.NormalizeLosesRule` |
| a package name survives being printed as a header | `BareOk`, `HeaderOk`, `RulePkgOk` | `LineHeader.BareOpenBody` (exact) |
| a bare name line with a comment is not renamed to a name with `=` | `RenameLineOk` in `Renamable` | `Limits.RenameLineExact` (exact) |

Three behaviours differ from what one would expect, and are proved as they are:

- **Deleting a package can leave a name line behind.** When the first line that names the package is a
  standalone rule and its first block is opened by a `{` on a line of its own, the round removes the
  standalone line and the block but not the name line in front of the `{`. No rule of another package is
  lost, but the file then loads with a failure. How many failures there will be can be read off the file
  in one pass (`DeleteTally.NamesStranded`: each standalone rule pays for one block behind it), and
  `DeletePkgMain.DeletePkgExact` proves the count exact; `Witnesses.DeleteStrandsName` is a five-line file.
- **Renaming need not end.** If the text of the new name before its first `{` is the old name, a
  single-line rule that is renamed still belongs to the old package: renaming `p` to `p{x` never ends on
  the file `p{t}=0`, `p {` (`Witnesses.RenameNeverEnds`). `RenameForever.HaltsIff` proves that this is
  exactly when it happens. On files that load without a failure the lines of a normalised package are
  no single-line rules, but they can become some: renaming `p` to `p{y}=z` never ends on the file
  `p { #`, `}` (`Witnesses.RenameLoadableNeverEnds`). Exactly which names do that is the predicate
  `LineSteady.Loops` on the old and the new name (`RenameForever.SoundHaltsIff`). The web layer admits
  both names (`Meaning.LoopingAdmitted`); what it admits without `=` and without a final brace never
  loops (`Meaning.AdmittedPlain`).
- **Normalising can lose a rule** whose thread name cannot be printed in a block
  (`Witnesses.NormalizeLosesRule`). `Meaning.NormalizeExactIff` proves exactly when it keeps all it
  promises. Keeping the rules alone would be a weaker promise, which an unsafe file can meet by
  accident (`Witnesses.UnsafeKeepsRules`).

Names that pass the checks of the web layer and hold no brace meet the name hypotheses
(`Meaning.PlainRename`, `Meaning.PlainThread`, `Meaning.CloneToChecked`).

## Model

| member | source | states |
|---|---|---|
| RuleSyntax.CheckSpec | AppOptR/src/config.rs:43-64 | the one-pass shape check decides exactly: some part is not blank, and every non-blank part is a tier name, a number or a range |
| SpecForms.PartExact | AppOptR/src/config.rs:43-64 | a part alone is accepted exactly when it is a tier name, a text of digits, or two of them with a dash between |
| SpecForms.ListExact | AppOptR/src/config.rs:43-64 | two lists with a comma between are accepted exactly when each is accepted or blank, and not both are blank |
| SpecForms.ShownLoads | AppOptR/src/web.rs:271-287 | whatever is shown for a non-empty set of present CPUs is accepted again, under any acceptable names |
| SpecForms.AsciiAccepted | AppOptR/src/config.rs:171-216 | with names in ASCII a rule is kept exactly when the package has 1 to 127 characters, the thread at most 31, and the spec selects something |
| RuleSyntax.FindComment | AppOptR/src/config.rs:66-75 | the flag-driven pass finds the end of the text before the first `#` or `//` that follows white space |
| LineMarks.CommentIgnored | AppOptR/src/config.rs:66-79 | behind white space, `#` or `//` and anything after it leaves the reading of a line as it is |
| LineMarks.CommentSkipped | AppOptR/src/config.rs:248-250 | a line that begins with one of them is skipped |
| LineMarks.MarkInside | AppOptR/src/config.rs:66-79 | without white space in front, `#` is part of the text |
| LineShape.LineShows | AppOptR/src/config.rs:66-79 | how a line is read, inside and outside of blocks, depends only on its body: leading white space and the comment tail do not matter |
| LineShape.Decompose | AppOptR/src/config.rs:132-137 | every line with content is white space, a body and a tail, so the previous law applies to all of them |
| LinePrint.EntryLineShows | AppOptR/src/rule_edit.rs:493 | a printed in-block rule, with any comment behind it, reads back as that name and spec and closes nothing |
| LinePrint.EntryLineExact | AppOptR/src/config.rs:81-91 | a printed in-block rule reads back exactly when the name does not look like a comment, a closer or a closed rule |
| LineParts.EntryReprints | AppOptR/src/rule_edit.rs:403-405 | whatever a line in a block holds, its name and spec printed again are neither comment nor closer and parse to the same name and spec, closing nothing; no condition on the name |
| LineHeader.SpecIsPlain | AppOptR/src/config.rs:43-64 | an accepted spec holds none of the characters that would change how its line is split |
| LineHeader.RuleBody | AppOptR/src/rule_edit.rs:484 | `pkg=spec` reads back as that package rule |
| LineHeader.RuleOpenBody | AppOptR/src/rule_edit.rs:467 | `pkg=spec {` reads back as that rule opening a block |
| LineHeader.BareOpenBody | AppOptR/src/rule_edit.rs:250-256 | a printed block header reads back as a header of the package exactly when the name does not combine `=` with a `{..}` target |
| LineHeader.WithCommentShows | AppOptR/src/rule_edit.rs:258-263 | a line printed in place of another, with its comment put behind, is read as the new text |
| LineHeader.WithCommentEntry | AppOptR/src/rule_edit.rs:207 | a single-line rule printed as an entry, its comment kept, reads back as the entry |
| LineMarks.CommentKept | AppOptR/src/rule_edit.rs:258-263 | the line printed in place of another ends with that line's comment verbatim, and has none when it had none |
| LineMarks.ItemKeeps | AppOptR/src/rule_edit.rs:199-209 | the entry made of a single-line rule is its thread, its spec and its comment |
| EditText.SetText | AppOptR/src/rule_edit.rs:461-485 | setting the rule of a package that a line names rewrites one line, which keeps its comment, and at most removes one line, a `{` alone; on any file |
| EditText.RemovedText | AppOptR/src/rule_edit.rs:283-291 | removing a thread's rules leaves every other line as it is, and of their own lines the header or closer with the comment |
| EditText.HeaderText | AppOptR/src/rule_edit.rs:521-530 | deleting a package rule takes its line, or leaves the bare header where the line opened a block, or finds nothing |
| LineHeader.AppendOpen | AppOptR/src/rule_edit.rs:234 | appending ` {` opens a block when the line has no comment, and leaves the line as it was when it has one |
| SpecSwapping.SwapText | AppOptR/src/rule_edit.rs:265-281 | the replaced text is the key, the spacing, the new spec, the kept braces and white space, and the old tail verbatim |
| SpecTheorems.SwapFrame | AppOptR/src/rule_edit.rs:265-281 | a replacement keeps everything up to the value and everything from the comment on |
| SpecTheorems.SwapEntry | AppOptR/src/rule_edit.rs:488 | in a block: same name, same closing, the new spec |
| SpecTheorems.SwapRule | AppOptR/src/rule_edit.rs:464 | outside: same package, same opening, the new spec |
| SpecTheorems.SwapEntryTwice | AppOptR/src/rule_edit.rs:265-281 | in a block a second replacement wins over the first |
| SpecTheorems.SwapRuleTwice | AppOptR/src/rule_edit.rs:265-281 | outside a second replacement wins over the first |
| SpecExact.SwapEntryExact | AppOptR/src/rule_edit.rs:267 | in a block the replacement is read as the new spec exactly when no `=` stands behind the closing brace, or nothing changes |
| LineRename.RenameShows | AppOptR/src/rule_edit.rs:627-634 | renaming a line changes its package and nothing else |
| LineSingle.RenameSingle | AppOptR/src/rule_edit.rs:627-634 | so it does for a single-line rule |
| LineSingle.ParseBehind | AppOptR/src/config.rs:102-109 | how a single-line rule is split depends on the package only through its name |
| LineMarks.SingleReads | AppOptR/src/config.rs:102-130 | `pkg{thread}=spec` is that thread rule |
| LineMarks.SingleOpens | AppOptR/src/config.rs:132-137 | with ` {` behind it, it also opens the block |
| Limits.RenameLineExact | AppOptR/src/rule_edit.rs:628-632 | a line takes a new name exactly when it is not a bare name with a comment or the name has no `=` |
| Loader.LoadLine | AppOptR/src/config.rs:246-339 | one turn of the loop with the loader's own variables: next state, rule to add, own failure |
| Loader.LoadLines | AppOptR/src/config.rs:240-343 | the loop computes the meaning of the file: kept rules in order and the failure count |
| Written.FileLoads | AppOptR/src/config.rs:240-343 | a file written in the documented forms (package and thread rules on a line, blocks opened in four ways and closed in two) loads to exactly the accepted rules it spells out, in order, with one failure per rejected rule |
| Written.BlankFree | AppOptR/src/config.rs:248-250 | a blank line anywhere changes nothing |
| Written.CommentFree | AppOptR/src/config.rs:248-250 | nor does a line that is a comment |
| Written.RemarkFree | AppOptR/src/config.rs:66-79 | nor does a comment behind a line, as long as it holds no closing brace |
| Written.SpecMissing | AppOptR/src/config.rs:132-167 | a name with an empty spec is a name, with or without a brace behind it |
| StrayLines.NameForgotten | AppOptR/src/config.rs:279-338 | a name that is not followed by its brace is forgotten, and costs one failure unless the next line fails anyway |
| StrayLines.LoneBrace | AppOptR/src/config.rs:311-327 | a brace without a name costs one failure and opens nothing |
| StrayLines.StrayCloser | AppOptR/src/config.rs:334-337 | a closing brace outside of blocks costs one failure |
| StrayLines.NoiseCosts | AppOptR/src/config.rs:268-274 | in a block a line without `=` and brace costs one failure and does nothing else |
| StrayLines.NamelessCosts | AppOptR/src/config.rs:81-91 | so does a spec without a name |
| StrayLines.NoiseCloses | AppOptR/src/config.rs:268-274 | a line that is no rule but holds a closing brace costs one failure and closes the block |
| StrayLines.CloserCloses | AppOptR/src/config.rs:93-100 | a brace in front closes the block without a failure, alone or with white space or a comment mark behind it |
| StrayLines.RuleCosts | AppOptR/src/config.rs:171-216 | a rule that is not accepted costs one failure and is not kept; an accepted one is kept |
| StrayLines.Unfinished | AppOptR/src/config.rs:341-343 | a name or a block left open at the end costs one failure |
| Splice.GoodIs | AppOptR/src/config.rs:260-343 | a file loads without a failure exactly when no line fails on its own account, it ends outside of blocks with no name waiting, and every rule is accepted |
| Splice.Replace | AppOptR/src/config.rs:246-339 | lines replaced by others that leave the loader in the same state change only their own rules |
| Scan.TargetScan | AppOptR/src/rule_edit.rs:44-188 | the loop with its own variables computes the scan |
| ScanSim.ScanSimulates | AppOptR/src/rule_edit.rs:68-186 | after every line both machines are in the same block state, the target block holds exactly in the loader's blocks of the package, and the recorded threads are exactly the loader's attempts |
| Limits.ScanAgreesIff | AppOptR/src/rule_edit.rs:177-179 | the two machines agree after every line exactly when no `{` on its own follows a bare `=` |
| ScanFacts.PkgLineFacts | AppOptR/src/rule_edit.rs:135-176 | the recorded package line is the first that names the package, with its kind; none recorded means none names it |
| ScanFacts.BlockFacts | AppOptR/src/rule_edit.rs:56-66 | the recorded bounds are those of the package's first block |
| ScanRange.ScanInRange | AppOptR/src/rule_edit.rs:44-188 | on any file every recorded position is inside it, and thread positions increase |
| Unseen.UnseenNoRules | AppOptR/src/rule_edit.rs:194-196 | a package that the scan does not see has no rule, on every file without a bare `=` |
| Prune.RemoveIsPrune | AppOptR/src/rule_edit.rs:223-225 | removing recorded rules from the last to the first prunes the file line by line |
| PruneMeans.PruneWalk | AppOptR/src/rule_edit.rs:283-291 | pruning leaves the loader's state as it was, and adds no failure |
| PruneMeans.PruneAttempts | AppOptR/src/rule_edit.rs:283-291 | pruning takes away exactly the rules of the pruned lines |
| PruneMeans.PruneKeepsPart | AppOptR/src/rule_edit.rs:283-291 | all rules of other packages and all package rules stay, in order |
| NormalizeMain.InsertMeans | AppOptR/src/rule_edit.rs:228-247 | wherever the rules are put, they are added and nothing else changes |
| NormalizeMain.NormalizeMeans | AppOptR/src/rule_edit.rs:199-248 | normalising keeps every rule, the order of other packages' rules and of package rules, and soundness |
| NormalForm.NeverGives | AppOptR/src/rule_edit.rs:215-220 | on a sound file normalising never gives up |
| NormalForm.NormalizedNoSingles | AppOptR/src/rule_edit.rs:199-248 | no single-line rule of the package is left |
| NormalForm.NormalizeIdempotent | AppOptR/src/rule_edit.rs:199-248 | a second run changes nothing |
| Meaning.NormalizeExact | AppOptR/src/rule_edit.rs:199-248 | on a zero-failure file: zero failures again, the same rules with other packages in order, no single-line rule left, idempotent |
| Meaning.NormalizeExactIff | AppOptR/src/rule_edit.rs:199-248 | that the file still loads, holds the same rules and has no single-line rule of the package left is true exactly when the moved names can be printed and the line that becomes the header has no comment |
| Limits.InsertedSoundIff | AppOptR/src/rule_edit.rs:233-239 | putting rules into the file keeps it sound exactly when the line that becomes the header has no comment |
| Limits.NormalizeGoodIff | AppOptR/src/rule_edit.rs:233-239 | with printable names normalising keeps a zero-failure file so exactly under the same condition |
| Witnesses.NormalizeLosesRule | AppOptR/src/rule_edit.rs:207 | a file with one rule whose normal form loads without a failure and holds none |
| Witnesses.UnsafeKeepsRules | AppOptR/src/rule_edit.rs:228-232 | loading with the same rules alone is no sign of that: a file of three lines keeps them by accident |
| Meaning.NormalizeKeepsAffinity | AppOptR/src/rule_match.rs:16-69 | normalising changes the CPUs of no thread, in any package |
| NormalizeAny.NoEqNormal | AppOptR/src/rule_edit.rs:199-248 | normalising brings no bare `=` into any file, loadable or not |
| Refusals.UnclosedStays | AppOptR/src/rule_edit.rs:215-220 | a file whose first block of the package is not closed is left alone, unless a rule on a line of its own comes first |
| Upsert.InsertThread | AppOptR/src/rule_edit.rs:492-506 | a thread without a rule gets one, wherever it is put, and nothing else changes |
| Upsert.ReplaceThread | AppOptR/src/rule_edit.rs:486-491 | the last rule of the thread is rewritten and its others are removed |
| UpsertMain.UpsertThreadExact | AppOptR/src/rule_edit.rs:486-506 | whichever branch runs: zero failures, exactly one rule for the thread with the given spec, all other rules kept |
| UpsertPkg.CarriedCase | AppOptR/src/rule_edit.rs:463-465 | the rule on the first naming line gets the new spec |
| UpsertPkg.BareCase | AppOptR/src/rule_edit.rs:480-482 | a block header without a spec gets one |
| UpsertPkg.PendingCase | AppOptR/src/rule_edit.rs:466-476 | the name line becomes the header and the brace on its own line goes; the skipped lines between stay |
| UpsertPkg.PendingBlock | AppOptR/src/rule_edit.rs:468-475 | the brace that is removed is the one that opened the block of the rewritten name line |
| UpsertMain.UpsertPackageExact | AppOptR/src/rule_edit.rs:461-485 | the given rule replaces the one on the first naming line, later package rules stay behind it, all other rules are kept |
| UpsertMain.UpsertPackageOnly | AppOptR/src/rule_edit.rs:461-485 | the package rules are exactly the given one if and only if there was at most one, on the first naming line |
| Refusals.PackageRefused | AppOptR/src/rule_edit.rs:461-485 | on any file without a bare `=`, setting a package rule is refused as malformed exactly when no line of the normalised file names the package and it ends in a block |
| Refusals.ThreadRefused | AppOptR/src/rule_edit.rs:486-506 | likewise a thread rule: exactly when the thread has none, the package has no closed block and no rule on a line of its own first, and the file ends in a block |
| Refusals.PackageAppended | AppOptR/src/rule_edit.rs:483-484 | where the package rule is appended, the file loads to the old rules and this one |
| Refusals.ThreadAdded | AppOptR/src/rule_edit.rs:492-506 | where a thread rule is added, to any such file, it is loaded as a rule of the package, and all other rules stay in order |
| Delete.FoundIff | AppOptR/src/rule_edit.rs:531-537 | a thread is reported missing exactly when no rule names it |
| Delete.DeleteThreadExact | AppOptR/src/rule_edit.rs:531-537 | deleting a thread removes all its rules and nothing else, or reports that there is none |
| Delete.DeletePackageExact | AppOptR/src/rule_edit.rs:521-530 | deleting the package rule removes the one on the first naming line and nothing else, or reports that it carries none |
| Refusals.DeleteRefused | AppOptR/src/rule_edit.rs:511-594 | on any file without a bare `=`, deleting a thread's rules or a package finds nothing exactly when nothing of it is there |
| DeletePkg.DoomedInRange | AppOptR/src/rule_edit.rs:554-586 | every position a round removes is in the file, and there is one, on any file |
| DeletePkg.RoundShrinks | AppOptR/src/rule_edit.rs:552-588 | every round strictly shrinks the file, whatever it holds |
| Shedding.ShedPending | AppOptR/src/rule_edit.rs:566-579 | a name line and its block go together; the skipped lines between them stay |
| Veil.VeiledScan | AppOptR/src/rule_edit.rs:44-188 | name lines left behind do not change what the scan sees |
| Veil.VeiledLoad | AppOptR/src/config.rs:311-343 | each name line left behind costs exactly one load failure and no rule |
| DeletePkgMain.DeletePkgExact | AppOptR/src/rule_edit.rs:549-592 | none of the package's rules is loaded any more, every other is, in order, and the load failures are exactly the name lines that one pass over the normalised file tells will be left |
| DeletePkgMain.RoundVeiled | AppOptR/src/rule_edit.rs:552-588 | one round on a file with names left behind: the names it leaves are what the one-pass count loses by it |
| DeletePkgMain.DeletePkgGood | AppOptR/src/rule_edit.rs:549-592 | the file stays loadable when no rule of the package on a line of its own stands before a block with a brace of its own |
| DeletePkgMain.RoundsLeaveNone | AppOptR/src/rule_edit.rs:552-588 | on any file without a bare `=`, loadable or not, no rule of the package is loaded when the rounds are over |
| Refusals.UnclosedGoes | AppOptR/src/rule_edit.rs:566-579 | of a first block that is never closed, the first round takes every rule line |
| Witnesses.DeleteStrandsName | AppOptR/src/rule_edit.rs:566-579 | a zero-failure file that loads with a failure once its only package is deleted |
| LineLighter.BodyLighter | AppOptR/src/rule_edit.rs:626-635 | a line renamed to any text whose head is not the old name comes closer to not naming it: a name may still be split at a `=` or a final brace, but then only once |
| LineSteady.BodySteady | AppOptR/src/rule_edit.rs:626-635 | unless the new name loops, a renamed line is of the same kind and names another package |
| RenameForever.HaltsIff | AppOptR/src/rule_edit.rs:596-638 | renaming ends on every file, loadable or not, if and only if the text of the new name before its first `{` is not the old name |
| RenameForever.SoundHaltsIff | AppOptR/src/rule_edit.rs:610-636 | it ends on every sound normalised file if and only if the new name does not loop, a check on the two names alone |
| Meaning.AdmittedHalts | AppOptR/src/web.rs:459-469 | on a loadable file renaming to a name that the web layer admits ends, unless the name loops |
| Meaning.AdmittedPlain | AppOptR/src/web.rs:464-469 | an admitted name without `=` that does not end in a brace never loops, the old name `}` aside |
| Meaning.LoopingAdmitted | AppOptR/src/web.rs:362-382 | the names of the two files on which renaming never ends are admitted |
| Rename.PassRenames | AppOptR/src/rule_edit.rs:611-636 | a pass renames one line and leaves the fully renamed file what it was |
| Rename.RenamedMeans | AppOptR/src/rule_edit.rs:626-635 | the renamed file loads to the renamed rules |
| RenameMain.PassesRename | AppOptR/src/rule_edit.rs:611-636 | the loop computes the file with every declaring line renamed |
| RenameMain.RenameExact | AppOptR/src/rule_edit.rs:596-638 | missing, refused or done exactly when it should be; the rules are those of the normalised file in order with the name replaced, and none is merged |
| RenameMain.RenameBack | AppOptR/src/rule_edit.rs:596-638 | renaming the result back succeeds, the file loads, and its rules are those of the normalised file |
| Refusals.RenameRefused | AppOptR/src/rule_edit.rs:596-608 | on any file without a bare `=`, renaming is refused exactly when no outer line names the old package or one names the new |
| Witnesses.RenameNeverEnds | AppOptR/src/rule_edit.rs:610-636 | a file whose block is not closed, and a new name with a brace: the renaming never ends |
| Witnesses.RenameLoadableNeverEnds | AppOptR/src/rule_edit.rs:610-636 | a file that loads without a failure, and a new name that holds a whole rule: the renaming never ends |
| Clone.EntriesWhole | AppOptR/src/rule_edit.rs:360-369 | the collected entries are the source's thread rules in file order |
| Clone.PackageSpecIs | AppOptR/src/rule_edit.rs:315-324 | the collected package spec is that of the source's first package rule, if the first naming line carries it |
| StillSeen.NormalizedSeen | AppOptR/src/rule_edit.rs:344-353 | a target with single-line rules is still seen after they were moved, so it is never cloned over |
| CloneMain.CloneExact | AppOptR/src/rule_edit.rs:337-407 | refused, missing or done exactly when it should be; the rules are those of the normalised file followed by the selection, owned by the target |
| Refusals.CloneRefused | AppOptR/src/rule_edit.rs:344-353 | on any file without a bare `=`, a clone is malformed exactly when the file ends in a block, and otherwise a conflict exactly when a line names the target |
| Refusals.CloneSetOff | AppOptR/src/rule_edit.rs:387-407 | behind a line with text the clone is set off by one empty line, and otherwise by none |
| CloneUndo.CloneUndone | AppOptR/src/rule_edit.rs:430-449 | deleting the target afterwards gives the normalised file back line by line, and so the previous rules |
| Meaning.CloneToChecked | AppOptR/src/web.rs:510-512 | the check made on the target's name is enough for the clone to be exact |
| Meaning.PlainRename | AppOptR/src/web.rs:371-378 | a plain name without braces can be printed in every place a package name is |
| Meaning.PlainThread | AppOptR/src/web.rs:371-378 | a plain name without `}` can be printed as a thread name |
| Editor.LineBuffer.LineRemove | AppOptR/src/rule_edit.rs:283-291 | removes one rule in place; a header or closer it carried stays with its comment |
| Editor.LineBuffer.RemoveLocs | AppOptR/src/rule_edit.rs:223-225 | removes recorded rules, the last first |
| Editor.LineBuffer.NormalizeSingles | AppOptR/src/rule_edit.rs:199-248 | the loops compute the normalised file |
| Editor.LineBuffer.CloneAppend | AppOptR/src/rule_edit.rs:387-407 | appends the blank line and the block |
| RuleFiles.RuleFile.Upsert | AppOptR/src/rule_edit.rs:451-509 | computes the edit in place; the file changes only when it succeeds |
| RuleFiles.RuleFile.Delete | AppOptR/src/rule_edit.rs:511-540 | computes the edit in place; the file changes only when it succeeds |
| RuleFiles.RuleFile.DeletePackage | AppOptR/src/rule_edit.rs:542-594 | the rounds compute the edit and end on any file |
| RuleFiles.RuleFile.DoomedIdxs | AppOptR/src/rule_edit.rs:554-583 | the positions collected are exactly those a round is to remove |
| RuleFiles.RuleFile.RemoveDoomed | AppOptR/src/rule_edit.rs:584-586 | removing them from the last to the first is one round |
| RuleFiles.RuleFile.Rename | AppOptR/src/rule_edit.rs:596-638 | where the renaming comes to an end, the passes compute the edit |
| RuleFiles.RuleFile.Prepare | AppOptR/src/rule_edit.rs:337-385 | normalises both packages and collects what is to be copied |
| RuleFiles.RuleFile.Clone | AppOptR/src/rule_edit.rs:430-449 | computes the edit in place; the file changes only when it succeeds |
| RuleFiles.RuleFile.CloneCheck | AppOptR/src/rule_edit.rs:409-426 | tells the refusal that the clone would meet, if any, and leaves the file alone |
| Witnesses.BareEqParts | AppOptR/src/rule_edit.rs:164-179 | a two-line file on which scan and loader part |
| Bits.SetBit | AppOptR/src/cpuset.rs:52-56 | setting a bit sets that bit only |
| CpuWords.CpuSet.Set | AppOptR/src/cpuset.rs:52-56 | adds one CPU in place; numbers beyond the array are ignored |
| CpuWords.CpuSet.IsSet | AppOptR/src/cpuset.rs:58-60 | tells membership |
| CpuWords.CpuSet.Count | AppOptR/src/cpuset.rs:62-64 | the bits set in the words are as many as the members |
| CpuWords.CpuSet.Or | AppOptR/src/cpuset.rs:66-70 | forms the union in place, also with itself |
| CpuWords.CpuSet.ToRangeString | AppOptR/src/cpuset.rs:72-106 | the word-skipping loop prints the maximal runs of the set |
| CpuWords.CpuSet.PushRange | AppOptR/src/cpuset.rs:136-148 | appends one run, with a comma unless it is the first |
| CpuRanges.RunsMaximal | AppOptR/src/cpuset.rs:72-106 | the printed runs are increasing, disjoint, as long as possible across word boundaries, and hold exactly the members |
| CpuRanges.RangeRoundTrip | AppOptR/src/cpuset.rs:150-184 | parsing the printed form gives the set, restricted to the present CPUs if asked |
| CpuRanges.RangeInjective | AppOptR/src/cpuset.rs:238-252 | directory names are equal exactly when the sets are |
| SpecForms.RangeTextIs | AppOptR/src/cpuset.rs:72-148 | the printed text itself: its parts are numbers or two increasing numbers with a dash, each part begins more than one behind the end of the part before, and the CPUs between the numbers, read left to right, are exactly the set |
| CpuParse.Bounds | AppOptR/src/cpuset.rs:160-174 | the two ends of a part, the lower first, whatever order they are written in; no first number means no range |
| CpuParse.Fill | AppOptR/src/cpuset.rs:175-182 | adds the CPUs of a range that fit the array and are present |
| CpuParse.ParseRanges | AppOptR/src/cpuset.rs:150-184 | the loops compute the CPUs of the ranges |
| CpuParse.ParseSpec | AppOptR/src/cpuset.rs:187-211 | the loop computes the CPUs of tiers and ranges |
| SpecForms.RangeMeans | AppOptR/src/cpuset.rs:150-211 | two numbers select the present CPUs between them, in either order; a first number out of range selects nothing, a second one counts as the first |
| SpecForms.NumberMeans | AppOptR/src/cpuset.rs:150-211 | one number selects that CPU if it is present |
| SpecForms.ListMeans | AppOptR/src/cpuset.rs:187-211 | a list selects what its halves select |
| SpecForms.NumberReads | AppOptR/src/cpuset.rs:160-171 | a number may carry a sign, has to fit the machine word, and nothing else is a number |
| CpuRanges.SpecWithin | AppOptR/src/cpuset.rs:187-211 | when every tier lies within the present CPUs, so does every result |
| CpuRanges.SpecNameExact | AppOptR/src/web.rs:271-287 | the shown form writes back to the same set exactly for tiers and subsets of the present CPUs |
| CpuRanges.SpecWritesBack | AppOptR/src/web.rs:271-287 | so whatever a spec selects is shown and written back without loss |
| RuleMatch.FindAffinity | AppOptR/src/rule_match.rs:16-69 | the loops compute the union of the matching thread rules, or of the package rules when none matches, and the directory |
| AffinityExact.ThreadRuleDecides | AppOptR/src/rule_match.rs:22-37 | when a matching thread rule names a CPU, the result is by thread, its CPUs are exactly those of the matching thread rules, and its directory is their printed form if it can be created |
| AffinityExact.PackageRulesIdle | AppOptR/src/rule_match.rs:37-51 | it is then the same for every configuration that differs in package rules only |
| AffinityExact.PackageRuleDecides | AppOptR/src/rule_match.rs:37-51 | with no match exactly the package rules decide |
| AffinityExact.PackageDirectory | AppOptR/src/rule_match.rs:37-51 | the directory is that of the only package rule, and none when there are several |
| AffinityExact.NothingDecides | AppOptR/src/rule_match.rs:53-69 | with no CPU from either, a package with thread rules gets all present CPUs and any other nothing |
| AffinityExact.LoadedPackageRule | AppOptR/src/config.rs:192-212 | from the file on: its only package rule gives every unmatched thread its CPUs, in the directory named after them where cpusets work |
| AffinityExact.LoadedPackages | AppOptR/src/config.rs:348-357 | a package is known when a rule or the tuning names it, and its threads are looked up by name exactly when one of those is about a thread |
| RuleMatch.AffinityFits | AppOptR/src/rule_match.rs:31-34 | whatever CPUs a thread gets, its directory is empty or names exactly them |
| RuleMatch.SameAffinity | AppOptR/src/rule_match.rs:22-51 | rules in another order, package rules aside, give every thread the same CPUs |
| TaskCache.DecideSettled | AppOptR/src/cache.rs:60-100 | an application stores only settled entries and never turns a thread rule into a package rule |
| TaskCache.ProcCache.TaskApply | AppOptR/src/cache.rs:48-102 | stores, keeps, drops or ignores the thread exactly as decided |
| EventExact.RulesApply | AppOptR/src/cache.rs:48-102 | where the rules give CPUs and no earlier thread rule stands against a package rule, a live thread is marked and cached with exactly them; a dead one leaves the cache |
| EventExact.ThreadRuleStays | AppOptR/src/cache.rs:71-79 | a package rule leaves a thread under an earlier thread rule its CPUs and directory |
| EventExact.OnlyTuned | AppOptR/src/cache.rs:59-70 | without CPUs a thread is tracked exactly when it is tuned |
| TaskCache.ProcCache.AffinitySync | AppOptR/src/cache.rs:105-126 | drops exactly the cached threads that are gone, and reports them |
| Tracking.KernelKeeps | appopt-ebpf/src/main.rs:135-228 | every single memory operation of a handler keeps the invariant, whatever the other cores and the daemon do in between |
| Tracking.HandlerAlone | appopt-ebpf/src/main.rs:135-228 | uninterrupted, the operations of a handler are the handler as one step |
| EventExact.HandlerDoes | appopt-ebpf/src/main.rs:134-228 | a handler marks the child of a managed thread and unmarks a thread that exits, no other; it reports exactly for managed threads and listed names, with one event |
| Tracking.DaemonKeeps | AppOptR/src/ebpf_mode.rs:500-590 | every single memory operation of the daemon keeps the invariant |
| Tracking.CachedIsManaged | AppOptR/src/ebpf_mode.rs:500-590 | in every reachable state with the daemon idle, through any changes of the configuration, each cached thread is managed or its exit is being submitted or queued; with neither, all cached threads are managed |
| Tracking.ExitWindow | appopt-ebpf/src/main.rs:210-227 | both exceptions are needed: states with a cached thread off the table, its exit being submitted, or queued |
| Tracking.StickyRun | AppOptR/src/cache.rs:71-79 | from the start or a scan on, while the configuration stays and with one package per thread, an entry under a thread rule stays so while it is cached |
| Tracking.DirsAgree | AppOptR/src/cache.rs:71-100 | in every reachable state, through any changes of the configuration, each cached directory is empty or the printed form of the cached mask |
| Tracking.LoadedOk | AppOptR/src/config.rs:348-356 | a configuration loaded from rules is one these theorems apply to |
| Dispatcher.HandlingAlone | AppOptR/src/ebpf_mode.rs:500-552 | left alone by the kernel, the daemon's steps on one event are the handler |
| Dispatcher.Tracker.EventDispatch | AppOptR/src/ebpf_mode.rs:500-527 | the handler as written updates the table and the cache as specified, by event kind |
| EventExact.OwnedEvent | AppOptR/src/ebpf_mode.rs:500-552 | a rename or exec applies the package the thread belongs to: the one it is named after, else, for a cut name, that of the command line, else that of its cached process; an exec that leads to nothing drops the thread |
| EventExact.StrangerEvent | AppOptR/src/ebpf_mode.rs:500-527 | with none of the three a rename does nothing and an exec drops the thread |
| EventExact.ProcessDecides | AppOptR/src/cache.rs:41-43 | a thread with a short name of its own is treated as its cached process is |
| EventExact.ExitAndFork | AppOptR/src/ebpf_mode.rs:506-520 | an exit drops the thread from cache and table, a fork changes nothing |
| Dispatcher.Tracker.Apply | AppOptR/src/ebpf_mode.rs:485-552 | applying one thread marks it in the table exactly when it is tracked |
| Dispatcher.Tracker.AffinityCheck | AppOptR/src/ebpf_mode.rs:555-560 | threads that are gone leave the cache and the table |
| EventExact.CheckDoes | AppOptR/src/ebpf_mode.rs:555-560 | a check that runs to its end, left alone, takes exactly the cached threads that are gone from cache and table |
| EventExact.ScanBegins | AppOptR/src/ebpf_mode.rs:474-482 | the beginning of a scan empties the cache and takes every listed thread off the table |
| EventExact.ChecksEnd | AppOptR/src/ebpf_mode.rs:474-482 | both come to an end |
| Dispatcher.Tracker.FullScan | AppOptR/src/ebpf_mode.rs:563-590 | a scan empties both and applies every thread found, in order |
| Dispatcher.ScannedManaged | AppOptR/src/ebpf_mode.rs:563-590 | a scan on its own leaves every cached thread managed |
| Dispatcher.KernelSide.ProcessFork | appopt-ebpf/src/main.rs:134-170 | a fork of a managed thread marks the child and is queued; otherwise only a listed name is queued |
| Dispatcher.KernelSide.ProcessExec | appopt-ebpf/src/main.rs:134-175 | an exec is queued for managed threads and listed names |
| Dispatcher.KernelSide.TaskRename | appopt-ebpf/src/main.rs:179-206 | a rename is queued for managed threads and listed names |
| Dispatcher.KernelSide.ProcessExit | appopt-ebpf/src/main.rs:210-228 | an exit of a managed thread unmarks it and is queued |
| Whitelist.BuildKeys | AppOptR/src/ebpf_mode.rs:110-130 | the keys are exactly the first and last 15 bytes of the packages, sorted, without duplicates, at most two each |
| Whitelist.WhitelistMatched | appopt-ebpf/src/main.rs:83-91 | the window loop accepts exactly the names whose first or second 15 bytes are a key |
| Whitelist.Complete | AppOptR/src/ebpf_mode.rs:110-130 | every configured package is accepted under its first and under its last 15 bytes |
| Whitelist.AcceptedOnly | appopt-ebpf/src/main.rs:81-91 | a name is accepted only for a package one of its two windows is a key of |
| Whitelist.InitKeys | AppOptR/src/ebpf_mode.rs:133-143 | a reload is asked for only when the keys do not fit, and never with the capacity computed for the same packages |
| Tuning.CheckGroups | AppOptR/src/tuning.rs:434-439 | the loop accepts exactly the lists without a group name twice |
| Tuning.CheckApps | AppOptR/src/tuning.rs:449-459 | the loop accepts exactly the lists without a package twice and without a missing group |
| Tuning.ConfigFromValue | AppOptR/src/tuning.rs:421-463 | the parser with its loops accepts exactly what the specification accepts |
| TuningProof.LimitExact | AppOptR/src/tuning.rs:272-312 | an accepted limit is `max` or exactly the 64-bit product of its digits and its unit |
| TuningProof.UnitIs | AppOptR/src/tuning.rs:283-303 | the unit is the first listed suffix the text ends with |
| TuningExact.LimitReads | AppOptR/src/tuning.rs:272-312 | digits and a unit in either case mean that many times 1, 1024, 1024^2, 1024^3 or 1024^4 bytes, and are refused exactly when that does not fit 64 bits |
| TuningExact.LimitOnly | AppOptR/src/tuning.rs:272-312 | nothing else is a limit, except `max` where it is allowed |
| TuningExact.SwapBounds | AppOptR/src/tuning.rs:333 | swappiness goes up to 200 |
| TuningExact.MaxBounds | AppOptR/src/tuning.rs:334-337 | `max` is accepted for memory_max alone |
| TuningExact.ThreadBounds | AppOptR/src/tuning.rs:356-384 | a thread rule is accepted exactly when its values are in range, the lower clamp is not above the upper, and not all are missing |
| TuningExact.GroupNameExact | AppOptR/src/tuning.rs:169-174 | a group name is 1 to 63 letters, digits, dots, underscores and dashes |
| TuningExact.NamesExact | AppOptR/src/tuning.rs:154-180 | in ASCII a package has 1 to 127 characters and none of `#{}\/`, a thread pattern 1 to 15 and no `#` |
| TuningExact.TemplateStays | AppOptR/src/tuning.rs:182-216 | followed from any place, an accepted path never leaves it, and an absolute one ends below one of the two control-group roots |
| TuningExact.MarkersKnown | AppOptR/src/tuning.rs:192-199 | of all texts in braces exactly `{uid}`, `{pid}` and `{pkg}` may stand in a path that is otherwise fine |
| TuningExact.BlankIsNone | AppOptR/src/tuning.rs:218-236 | a blank limit or group counts as none |
| TuningExact.MissingIsNull | AppOptR/src/tuning.rs:218-270 | a missing field of any object is read as null |
| TuningExact.FieldsNamed | AppOptR/src/tuning.rs:314-384 | every value is read from the field that is named after it |
| TuningProof.ConfigRoundTrip | AppOptR/src/tuning.rs:421-505 | every accepted configuration prints and parses back to itself, and exactly the valid ones do |
| TuningProof.CloneApp | AppOptR/src/tuning.rs:568-624 | refused exactly when a category is missing at the source or present at the target; otherwise the copy is as specified |
| TuningProof.CloneRefusedIff | AppOptR/src/tuning.rs:568-624 | a clone is refused exactly when there is none that copies what is selected and overwrites nothing |
| TuningProof.CloneLosesNothing | AppOptR/src/tuning.rs:568-624 | a memory group or thread rules that were set, in any app, are still there |
| TuningProof.CloneValid | AppOptR/src/tuning.rs:568-624 | a clone to a valid name keeps the configuration one the validator accepts |
| TuningProof.CloneFrame | AppOptR/src/tuning.rs:568-624 | all other apps stay, the target gets exactly the selection and keeps its other category |

## Left out

- File reading and writing, the temporary file, modification times, inotify and locks: an edit maps lines to lines, and writing is taken to succeed, so the result `IoErr` does not occur.
- The HTTP server, request parsing, suggestion lists and the web pages; of the web layer only the shown spec and the name checks are used.
- System calls: whether setting an affinity finds the thread gone, whether a cpuset directory could be created, and what a process calls itself are parameters of the model.
- `fnmatch` is an arbitrary relation between patterns and names, as in section 2.13 of the Shell and Utilities volume of IEEE Std 1003.1; only the length limit around it is modelled.
- UTF-8 offsets: lines are sequences of characters and positions count characters; lengths that the code limits in bytes are computed as UTF-8 lengths.
- Hash-map order: the scan's records are kept in file order with their names; where the source sorts what it takes from a hash map, or treats the positions independently, file order gives the same result.
- Sorting and removing duplicates with library calls: positions to delete are a set removed from the last to the first; whitelist keys are inserted in order.
- RuleFiles.RuleFile.Rename: asks that the renaming comes to an end, because the loop of the source need not; `RenameForever.HaltsIff` and `RenameForever.SoundHaltsIff` tell from the two names when it does.
- RenameForever.SoundHaltsIff: speaks of sound files, on which no line fails on its own account; the rules of the files that loop are short, but for very long old names their lengths are not checked.
- DeletePkgMain.DeletePkgExact: does not promise a loadable file, because the code can strand a name line; it gives the exact number of load failures instead.
- Tracking.CachedIsManaged: assumes that no table entry is evicted, no insertion fails and no event is dropped, and that events are queued in the order in which they are submitted; the kernel's table is a set of threads, its stored masks are never read.
- Tracking.StickyRun: speaks of stretches under one configuration with one package per thread; a thread that changes packages, or a package that loses its thread rules, may change its kind of entry.
- Whitelist.InitKeys: leaves out failing map insertions and the narrowing of the capacity to 32 bits.
- TuningProof.ConfigRoundTrip: is about JSON values; text syntax, error messages and numbers that are not integers (which are told apart only as such) are not modelled.
- Applying tuning to threads and groups, cgroup path expansion and effective values: they depend on the environment and would add easy members.
- Walking `/proc`, the polling mode, core-tier detection, tracepoint offsets, the event reader and program loading: they depend on the environment.
- Main loop, timers, settings and packaging: they would only add easy members.
