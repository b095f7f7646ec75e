# git-crypt-users, modelled in Dafny

git-crypt-users is a set of four Node.js command-line scripts that manage who
can decrypt a git-crypt repository:

- `list` prints each git-crypt user with the name on their GnuPG key and marks
  revoked keys.
- `import` fetches the public keys of users missing from the local keyring from
  two keyservers and imports them.
- `rotate` generates a new git-crypt key. Before doing so it checks that the
  repository is unlocked and clean and that at least half the users' keys are in
  the local keyring. It then re-encrypts the repository and re-adds every user
  whose key is present.
- `remove` does the same as `rotate`, but skips re-adding the users named on the
  command line.

The scripts are built on small libraries:

- `lib/gpg.js` reads the keyring.
- `lib/git-crypt.js` covers status, user ids, lock detection, filter hooks,
  adding a user and the rotation itself.
- `lib/git.js` covers commit, clean check, staging and the local configuration
  keys.
- `lib/fs.js` covers copy with a size check, backup to a temporary directory,
  idempotent unlink and `which`.

The model describes the system as the scripts observe it. The state (`Env.State`)
has three parts:

- a file system, as a map from path to content;
- the repository's local git configuration, as an ordered list of key/value
  entries, in which a key may appear more than once (a key with several
  values);
- the ordered log of every external call made (`Env.Op`: `execa`, `mkdtemp`,
  `copyFile`, `stat`, `unlink`, `rimraf`, `readdir`, `writeFile`, ...).

Three values fix everything the collaborators answer:

- `Env.World`: the process output and exit codes, and which calls fail;
- `Gpg.Keyring`: the GnuPG listing and exports, and the keys openpgp reads from
  an armour;
- `Gpg.Keyservers`: the two HKP lookups.

`World` answers a given call the same way every time it is made. A call in
`fails` fails on every attempt. `git crypt status`, `git ls-tree`, the readdir
of the key directory and `which git-crypt` print the same output each time. So
removeHooks' four configuration listings fail or succeed together. Only what a
configuration listing prints follows the state, because it is read from the
modelled configuration.

Each operation of the libraries and scripts has two forms:

- a function from the old state to an `Outcome` (the new state, plus the value
  returned or the error thrown);
- a method over a `Env.Host` object whose fields are that state. Each method's
  `ensures` says its new state and result are exactly those of the function.

Loops in the source, such as `for (const filePath of encrypted)` or the re-add
loop, become `for` loops with invariants. The lemmas state what the source
promises about those functions:

- what each call does to the files, the configuration and the log;
- when it throws;
- which users end up re-added;
- round trips, such as installing and then removing the hooks;
- the quorum rule;
- what is left behind on failure.

Modules follow the source files:

| module | file |
|---|---|
| `Results` | shared option, result and value types |
| `Text` | JavaScript `split`/`join`/`trim`/`includes` |
| `Env` | the state and the primitive calls |
| `Git` | lib/git.js |
| `Fs` | lib/fs.js |
| `Gpg` | lib/gpg.js |
| `GitCrypt` | lib/git-crypt.js |
| `Rotate` | bin/rotate.js |
| `Remove` | bin/remove.js |
| `ListUsers` | bin/list.js |
| `ImportKeys` | bin/import.js |

## Behaviour of the code worth knowing

- **No de-duplication in the listing.** `listKnownPublicKeys` keeps only the
  text between the first and second dashed separator. It takes the first
  40-hex-digit run of each blank-line-separated entry and does not remove
  duplicates. An entry whose fingerprint is printed in space-separated groups
  of at most four characters yields no id, provided the text around the groups
  holds no 40-digit run of its own (`Gpg.SpaceGroupedNeverMatches`).
- **Revoked keys still count.** In rotate and remove, the second `filter` of
  the known users takes an `async` callback. A promise is always truthy, so the
  filter keeps every id: revoked keys, and keys whose export is empty, count
  towards the quorum and are re-added (`Rotate.KnownUsers`).
- **A keyserver error is fatal.** In import, a lookup that rejects throws out of
  the loop and ends the script. Only an empty answer makes the script move
  on to the next id.
- **A hook key with several values stops the rotation.** git exits with status
  5 when asked to set or unset a key that holds more than one value, so
  setLocalConfig and unsetLocalConfig throw for such a key (`Git.SetEffect`,
  `Git.UnsetCases`), and so does the removeHooks or installHooks that calls them.
- **The temporary directory can be left behind.** Import removes it only when
  nothing threw (`ImportKeys.ImportScriptKeepsTempOnError`).
- **Failure in a re-add loop's error handler.** Rotate's catch block calls
  `getUsernames` again, so a user whose key cannot be parsed aborts the whole
  re-add loop (`Rotate.ReAddAllBestEffort`). Remove calls `getUsernames` before
  checking the skip list, so even a skipped user whose key cannot be parsed
  aborts the loop (`Remove.SkipOrAddAllBestEffort`).
- **List checks names before the armour.** `list` calls `getUsernames` before
  `parsePublicKeys`, so an armour with zero or several keys throws the
  single-key `TypeError` (`ListUsers.DescribeLine`).
- **The known-key checks run beside un-awaited promises.** In rotate and remove,
  the `async` callback of the second `filter` is started for every known id and
  never awaited, so its `gpg --export` and `parsePublicKeys` run alongside the
  checks and the rotation. A `parsePublicKeys` error there is an unhandled
  rejection that the script's `catch` never sees.
- **The quorum is a real division.** The check
  `knownUsers.length < userIds.length / 2` is a division on doubles. It is the
  same as requiring `2 * known >= total` (`Rotate.TooFew`).

## Model

| member | source | states |
|---|---|---|
| Results.SelectMembers | bin/rotate.js:53-54 | filtering ids by membership in another list keeps exactly the ids whose membership matches, and never lengthens the list |
| Text.IndexOf | lib/gpg.js:14 | `includes`: finds an occurrence exactly when one exists, and returns the first |
| Text.Split | lib/gpg.js:35-38 | `split`: at least one piece; exactly one (the whole string) when the separator is absent; no piece contains the separator |
| Text.JoinSplit | lib/gpg.js:35-38 | joining the pieces of a split with the same separator gives back the string |
| Text.SplitJoin | lib/gpg.js:22-25 | splitting a join gives back the parts when no part contains or straddles the separator |
| Text.Trim | lib/git.js:30 | `trim` removes exactly the leading and trailing white space and keeps the middle |
| Text.TrimmedLinesOfJoin | lib/git.js:28-31 | splitting on newlines, trimming and dropping empty lines gives back any list of non-empty, space-free names that was joined by newlines |
| Env.RemovedTree | lib/git-crypt.js:171-172 | rimraf of a directory removes the directory and everything under it and keeps every other file unchanged |
| Git.CommitRecordsMessage | lib/git.js:5-9 | the commit logs `git commit -a -m <msg>` with the given message, defaulting to "changed files"; it succeeds exactly when that call does not fail, and changes nothing else |
| Git.CommitChanges | lib/git.js:5-9 | the method's new state and result are those of the commit function |
| Git.CleanRun | lib/git.js:11-18 | isClean never throws, reports clean exactly when the exit code is 0, and logs one diff-index call |
| Git.IsClean | lib/git.js:11-18 | the method returns the clean check's verdict and logs its call |
| Git.Stage | lib/git.js:51-53 | the method's new state and result are those of `git add <path>` |
| Git.ListingParses | lib/git.js:20-32 | parsing the name-only listing of a valid configuration gives back its keys in order |
| Git.ListKeysRun | lib/git.js:20-32 | one listing call is logged; it throws exactly when that call fails, and otherwise answers the configuration's keys |
| Git.ListLocalConfigKeys | lib/git.js:20-32 | the method's new state and result are those of the listing function |
| Git.WithoutKeeps | lib/git.js:37-39 | unsetting a key leaves every other key's value unchanged |
| Git.WithoutEffect | lib/git.js:37-39 | unsetting a key removes every value it holds, keeps the configuration valid and keeps every other key |
| Git.UnsetStep | lib/git.js:37-39 | the unset call is logged and changes no file; it succeeds exactly when the call does not fail and the key holds at most one value, and then no value of the key is left; a failure throws a git error and leaves the configuration as it was |
| Git.UnsetCases | lib/git.js:34-41 | a failed listing throws after one call; an unlisted key costs one listing and changes nothing; a listed key gets the listing then the unset call, which succeeds exactly when the call does not fail and the key holds one value (git exits with status 5 for several), and a failure leaves the configuration as it was |
| Git.UnsetCalls | lib/git.js:34-41 | the calls follow the plan "list, then unset if listed" and make all of it on success; files never change; a failed call leaves the configuration as it was |
| Git.UnsetConfig | lib/git.js:34-41 | after a successful unset the key is gone, the configuration stays valid, other keys are kept, and an absent key changes nothing |
| Git.UnsetIdempotent | lib/git.js:34-41 | unsetting twice leaves the configuration as after once; the second time costs only a listing |
| Git.UnsetLocalConfig | lib/git.js:34-41 | the method's new state and result are those of the unset function |
| Git.SetArgs | lib/git.js:43-49 | the arguments are `config --local [--bool] key value`, with `--bool` exactly for boolean values |
| Git.SetArgsParse | lib/git.js:43-49 | the key and the value can be read back from the arguments |
| Git.PutFinds | lib/git.js:48 | after `git config key value` the key holds the value |
| Git.PutKeeps | lib/git.js:48 | setting a key leaves every other key's value unchanged |
| Git.PutValid | lib/git.js:48 | setting a valid key keeps the configuration valid |
| Git.SetEffect | lib/git.js:43-49 | one call logged; it succeeds exactly when the call does not fail, the key is valid and the key holds at most one value (git exits with status 5 for several); on success the key holds the value and the others are kept; on failure the configuration is unchanged |
| Git.SetLocalConfig | lib/git.js:43-49 | the method's new state and result are those of the set function |
| Fs.CopyOneCopies | lib/fs.js:20-39 | a successful pass had a defined path whose source existed, and its target now holds the source's content; no other file changes |
| Fs.CopyRunCopies | lib/fs.js:19-40 | after a successful copyFiles every path was defined, and each target holds its source's content |
| Fs.CopyRunFrame | lib/fs.js:19-40 | copyFiles touches no file outside the target directory and never the configuration |
| Fs.CopyRunFailure | lib/fs.js:19-40 | a failed copyFiles is the failure of the first pass that threw, after all earlier passes succeeded |
| Fs.CopyOneMismatch | lib/fs.js:28-38 | a size-mismatch error names the copied path, and the copy was short |
| Fs.CopyRunLog | lib/fs.js:19-40 | the calls follow mkdirp, copy, stat, stat for each path in order, cut short at a throw and complete on success |
| Fs.CopyRunStops | lib/fs.js:20-39 | once a pass throws, no later pass runs |
| Fs.CopyEntry | lib/fs.js:20-39 | the method's new state and result are those of one pass |
| Fs.CopyFiles | lib/fs.js:19-40 | the loop method's new state and result are those of copyFiles |
| Fs.BackupRunCopies | lib/fs.js:11-17 | for a source apart from the new directory, a successful backup returns a directory that did not exist before, under the temporary directory and named with the backup prefix; it holds a copy of each file; files outside it are kept |
| Fs.ApartFromBackup | lib/fs.js:12-14 | a directory inside the temporary directory, such as `/tmp/repo`, is apart from the backup directory when the first character of its name differs from the first character of the backup prefix |
| Fs.BackupFrame | lib/fs.js:11-17 | the backup's calls are mkdtemp then the copy plan; it changes nothing outside the new directory and never the configuration |
| Fs.BackupFiles | lib/fs.js:11-17 | the method's new state and result are those of the backup function |
| Fs.UnlinkIfExistsGone | lib/fs.js:42-52 | it throws exactly when the unlink fails for a reason other than a missing file; on success the file is gone; a missing file changes nothing; other files are kept |
| Fs.UnlinkIfExistsIdempotent | lib/fs.js:42-52 | unlinking again after a success succeeds and changes no file |
| Fs.UnlinkIfExists | lib/fs.js:42-52 | the method's new state and result are those of the unlink function |
| Fs.Which | lib/fs.js:54-57 | the method runs `which <command>` in a shell and returns its output |
| Gpg.EntryKeyId | lib/gpg.js:39-42 | the id of an entry is empty exactly when the entry has no 40-hex-digit run, and otherwise is the first such run |
| Gpg.SpaceGroupedNeverMatches | lib/gpg.js:10 | an entry made of some text, groups of at most four characters joined by single spaces, and more text never matches the fingerprint pattern, when neither text has a match of its own and neither meets the groups with a hex digit |
| Gpg.FingerprintsOfEntry | lib/gpg.js:39-43 | an entry contributes its fingerprint exactly when it has one, and nothing otherwise |
| Gpg.FingerprintsAppend | lib/gpg.js:37-43 | the fingerprints of concatenated entries are the concatenated fingerprints |
| Gpg.ListKnownPublicKeys | lib/gpg.js:29-44 | it throws a `TypeError` exactly when the listing has no separator; otherwise every id is a fingerprint, with at most one per entry |
| Gpg.ListingIgnoresTrailer | lib/gpg.js:35 | only the text between the first and second separator is read; anything after the second is ignored |
| Gpg.ListingBody | lib/gpg.js:35-43 | the ids are the fingerprints of the entries of the body under the separator |
| Gpg.FingerprintsAllKeyed | lib/gpg.js:37-43 | when every entry has a fingerprint, there is one id per entry, in order |
| Gpg.FingerprintsNoneKeyed | lib/gpg.js:37-43 | entries without a fingerprint give no ids |
| Gpg.ListingOfKeys | lib/gpg.js:29-44 | a listing built from a header and keyed entries is read back as exactly those entries' ids |
| Gpg.GetLocalPublicKey | lib/gpg.js:12-18 | the export is returned exactly when it contains the public-key header, and null otherwise |
| Gpg.ParsePublicKeys | lib/gpg.js:50-58 | it returns the one key when the armour holds exactly one, and throws the single-key `TypeError` otherwise |
| Gpg.UserName | lib/gpg.js:24 | a user's name is its user id when that is present and non-empty, and "unknown" otherwise |
| Gpg.UserNames | lib/gpg.js:23-24 | one name per user, in order |
| Gpg.UsernamesSplit | lib/gpg.js:20-27 | the comma-joined names split back into the users' names |
| Gpg.GetUsernames | lib/gpg.js:20-27 | it answers the key's joined user names exactly when the exported armour holds one key, and throws the single-key `TypeError` otherwise |
| Gpg.LookupPublicKey | lib/gpg.js:46-48 | a non-empty MIT answer is the result; after an empty MIT answer the result is the PGP server's answer, whatever it is; a rejecting MIT lookup is thrown; a key is found exactly when one of the two servers, asked in that order, has one |
| GitCrypt.ParseLineMeaning | lib/git-crypt.js:77 | a status line's status is the trimmed text before the first ':', and its path is absent exactly when there is no ':' |
| GitCrypt.ClassifyPaths | lib/git-crypt.js:72-84 | each line's path goes to the encrypted list exactly when its status is "encrypted", and otherwise to the unencrypted list; the two lists together have one entry per line |
| GitCrypt.ClassifySnoc | lib/git-crypt.js:76-81 | one more line appends its path to exactly one of the two lists |
| GitCrypt.Tally | lib/git-crypt.js:72-84 | the reduce loop computes the classification of the parsed lines |
| GitCrypt.GetStatus | lib/git-crypt.js:68-85 | the method's new state and result are those of getStatus |
| GitCrypt.KeyFileId | lib/git-crypt.js:91 | the id is a word that, with ".gpg" appended, is the file name |
| GitCrypt.UserIdsExact | lib/git-crypt.js:87-92 | an id is listed exactly when it is a word and its ".gpg" file is in the key directory |
| GitCrypt.UserIdsOfAppend | lib/git-crypt.js:89-91 | the ids of two runs of file names are the ids of each, in order |
| GitCrypt.GetUserIds | lib/git-crypt.js:87-92 | the method's new state and result are those of getUserIds |
| GitCrypt.TrimmedLinesClean | lib/git-crypt.js:126-129 | the file names passed to grep are non-empty and trimmed |
| GitCrypt.IsLockedDecides | lib/git-crypt.js:118-137 | it throws exactly when ls-tree fails; otherwise it reports locked exactly when grep exits 0, after logging ls-tree then grep over the listed files; files and configuration are unchanged |
| GitCrypt.IsLocked | lib/git-crypt.js:118-137 | the method's new state and result are those of isLocked |
| GitCrypt.HookEntries | lib/git-crypt.js:99-115 | the four hook keys, in order, with `filter.git-crypt.required` set to the boolean true |
| GitCrypt.HookKeysDistinct | lib/git-crypt.js:100-115 | the four hook keys are distinct |
| GitCrypt.SetEachFrame | lib/git-crypt.js:98-116 | setting the hook entries changes no file and keeps the configuration valid; its calls follow the plan and are all made on success |
| GitCrypt.SetEachValues | lib/git-crypt.js:98-116 | after all sets succeed, each key holds its value and every other key is unchanged |
| GitCrypt.HooksInstalled | lib/git-crypt.js:98-116 | installHooks changes no file, follows its plan, and on success sets the four hooks to the git-crypt command's diff/clean/required/smudge values and keeps every other key |
| GitCrypt.InstallHooks | lib/git-crypt.js:98-116 | the method's new state and result are those of installHooks |
| GitCrypt.UnsetEachFrame | lib/git-crypt.js:139-144 | the unsets change no file and keep the configuration valid |
| GitCrypt.UnsetEachValues | lib/git-crypt.js:139-144 | after all unsets succeed none of the keys is set, and every other key is unchanged |
| GitCrypt.UnsetEachLog | lib/git-crypt.js:139-144 | with distinct keys, each unset finds its key listed exactly when it was set at the start, so the calls follow the plan computed from the initial configuration |
| GitCrypt.HooksRemoved | lib/git-crypt.js:139-144 | removeHooks changes no file, follows its plan, and on success leaves none of the four hooks set and every other key unchanged |
| GitCrypt.HooksRoundTrip | lib/git-crypt.js:98-144 | installing and then removing the hooks leaves the configuration as before, except that the four hook keys are unset |
| GitCrypt.RemoveHooks | lib/git-crypt.js:139-144 | the method's new state and result are those of removeHooks |
| GitCrypt.Init | lib/git-crypt.js:94-96 | the method's new state and result are those of `git crypt init`, which in the model makes no file or configuration change of its own |
| GitCrypt.AddUserCalls | lib/git-crypt.js:29-37 | addUser logs `add-gpg-user`; when that succeeds and the key parses, it also commits with the user names in the message; it succeeds exactly when both calls do; it makes no file or configuration change of its own |
| GitCrypt.AddUserAttempts | lib/git-crypt.js:29-37 | whatever happens, addUser attempts exactly one `add-gpg-user`, for that user |
| GitCrypt.AddUser | lib/git-crypt.js:29-37 | the method's new state and result are those of addUser |
| GitCrypt.UnlinkEachFrame | lib/git-crypt.js:159-161 | deleting the encrypted files follows the plan, never adds or changes a file, and never removes one outside the repository |
| GitCrypt.UnlinkEachGone | lib/git-crypt.js:159-161 | after a successful run every encrypted path is gone |
| GitCrypt.UnlinkEachStops | lib/git-crypt.js:159-161 | once an unlink throws, no later one runs |
| GitCrypt.UnlinkEncrypted | lib/git-crypt.js:159-161 | the loop method's new state and result are those of the unlink run |
| GitCrypt.StageEachFrame | lib/git-crypt.js:184-186 | staging changes no file and no configuration and follows the plan of one `git add` per path |
| GitCrypt.StageEncrypted | lib/git-crypt.js:184-186 | the loop method's new state and result are those of the stage run |
| GitCrypt.ClearLog | lib/git-crypt.js:159-173 | the destructive half (delete, commit, remove hooks, rimraf both vault directories, commit) follows its plan and keeps the configuration valid |
| GitCrypt.ClearFiles | lib/git-crypt.js:159-173 | the destructive half only removes files, never outside the repository; on success the encrypted files and both vault directories are gone and no hook is set |
| GitCrypt.ClearConfig | lib/git-crypt.js:159-173 | on success every key other than the four hooks is unchanged |
| GitCrypt.ClearRepository | lib/git-crypt.js:159-173 | the method's new state and result are those of the destructive half |
| GitCrypt.RestoreLog | lib/git-crypt.js:176-193 | the restoring half (init, copy back, stage, commit, install hooks) follows its plan |
| GitCrypt.RestoreFiles | lib/git-crypt.js:176-193 | the restoring half changes nothing outside the repository, and on success each encrypted path holds the backup's content |
| GitCrypt.RestoreHooks | lib/git-crypt.js:176-193 | on success the four hooks hold the git-crypt values and every other key is unchanged |
| GitCrypt.RestoreRepository | lib/git-crypt.js:176-193 | the method's new state and result are those of the restoring half |
| GitCrypt.RotateLog | lib/git-crypt.js:146-199 | the rotation follows its plan and always ends with the `finally` rimraf of the backup directory, or of `undefined` when no backup was made |
| GitCrypt.RotateCleansUp | lib/git-crypt.js:146-199 | a backup directory exists exactly when getStatus and the backup succeeded; when it does, it is under the temporary directory and gone at the end; when it does not, the rotation throws |
| GitCrypt.RotateKeepsOutside | lib/git-crypt.js:146-199 | for a repository apart from the backup directory, once the backup was made the rotation leaves every file outside the repository as it was |
| GitCrypt.RotateRestores | lib/git-crypt.js:146-199 | for a repository apart from the backup directory, a successful rotation leaves every encrypted file with its original content, the four hooks installed, and every other key unchanged |
| GitCrypt.RotateKey | lib/git-crypt.js:146-199 | the method's new state and result are those of the rotation |
| GitCrypt.BackupEncryptedSource | lib/git-crypt.js:39-66 | when `process.cwd()` is apart from the backup directory, a successful backup is a fresh directory under the temporary directory holding a copy of each encrypted file, read from `process.cwd()` |
| GitCrypt.BackupEncryptedFiles | lib/git-crypt.js:39-66 | the method's new state and result are those of backupEncryptedFiles |
| Rotate.TooFew | bin/rotate.js:72 | the "<50%" check, a division on doubles, holds exactly when twice the known count is less than the total |
| Rotate.PreflightKeys | bin/rotate.js:50-76 | the keyring checks touch only the log (at most one readdir); once the key directory lists and the keyring listing parses, they refuse for no known keys exactly when no id is in the keyring, refuse for too few exactly when some but fewer than half are, and clear otherwise; the cleared users are the ids in the keyring, in order |
| Rotate.PreflightFrame | bin/rotate.js:30-76 | the checks change no file and no configuration and add no user |
| Rotate.PreflightCalls | bin/rotate.js:30-76 | checks that clear make exactly the version, ls-tree, grep, diff-index and readdir calls |
| Rotate.PreflightOrder | bin/rotate.js:38-48 | the locked refusal comes exactly when grep exits 0; when unlocked, the unclean refusal comes exactly when diff-index exits non-zero |
| Rotate.PreflightClears | bin/rotate.js:30-76 | the checks clear exactly when the version probe, ls-tree and readdir succeed, the repository is unlocked and clean, and the quorum holds; the cleared users are the ids in the keyring |
| Rotate.ReAddOne | bin/rotate.js:81-89 | one pass ends without throwing exactly when the user's key yields names, because the catch calls getUsernames again |
| Rotate.ReAddOneAdds | bin/rotate.js:81-89 | one pass attempts exactly one add, for that user, and makes no file or configuration change of its own |
| Rotate.ReAddAllFrame | bin/rotate.js:80-90 | the re-add loop makes no file or configuration change of its own |
| Rotate.ReAddAllAttempts | bin/rotate.js:80-90 | the adds attempted are a prefix of the users, in order, and all of them when the loop completes |
| Rotate.ReAddAllBestEffort | bin/rotate.js:80-90 | the loop completes exactly when every user's key yields names; a failed add alone never stops it |
| Rotate.ReAddAllStops | bin/rotate.js:80-90 | once a pass throws, no later pass runs |
| Rotate.RotateThenReAdd | bin/rotate.js:78-90 | after the checks, the script completes exactly when the rotation succeeds and every user's key yields names; every known user is then attempted once, in order; the loop makes no file or configuration change of its own, so both are as the rotation left them |
| Rotate.RotateScriptRefusals | bin/rotate.js:38-76 | a refusal returns its verdict with exit code 1, changes no file or configuration, and adds no user |
| Rotate.RotateScriptCompletes | bin/rotate.js:29-94 | the exit code is 0 exactly when the script completes, and completing means the checks cleared and the rotation and re-add ran over the cleared users |
| Rotate.Preflight | bin/rotate.js:30-76 | the method's new state and result are those of the checks |
| Rotate.ReAddUsers | bin/rotate.js:80-90 | the loop method's new state and result are those of the re-add loop |
| Rotate.RotateScript | bin/rotate.js:29-94 | the method's new state and result are those of the script |
| Remove.SkipOrAdd | bin/remove.js:83-95 | one pass ends without throwing exactly when the user's key yields names, whether or not the user is skipped |
| Remove.SkipOrAddAttempts | bin/remove.js:83-95 | one pass attempts an add for the user exactly when the names were read and the user is not named on the command line |
| Remove.SkipOrAddAllFrame | bin/remove.js:82-96 | the loop makes no file or configuration change of its own |
| Remove.SkipOrAddAllAttempts | bin/remove.js:82-96 | the adds attempted are a prefix of the users not named on the command line, and all of them when the loop completes |
| Remove.SkipOrAddAllBestEffort | bin/remove.js:82-96 | the loop completes exactly when every user's key, skipped or not, yields names |
| Remove.SkipOrAddAllSkips | bin/remove.js:82-96 | no user named on the command line is re-added, and nobody outside the known users is |
| Remove.SkipOrAddAllStops | bin/remove.js:82-96 | once a pass throws, no later pass runs |
| Remove.RotateThenSkip | bin/remove.js:80-96 | the script completes exactly when the rotation succeeds and every user's key yields names; exactly the known users not named are then re-added, in order |
| Remove.RemoveScriptRefusals | bin/remove.js:40-78 | a refusal returns its verdict with exit code 1, changes no file or configuration, and adds no user |
| Remove.RemoveScriptCompletes | bin/remove.js:31-100 | the exit code is 0 exactly when the script completes, and completing means the checks cleared and the rotation and skip-or-add loop ran over the cleared users |
| Remove.SkipOrAddUsers | bin/remove.js:82-96 | the loop method's new state and result are those of the loop |
| Remove.RemoveScript | bin/remove.js:31-100 | the method's new state and result are those of the script |
| ListUsers.DescribeLine | bin/list.js:20-39 | a pass throws the single-key `TypeError` exactly when an exported key block holds no key or several; a missing key prints the "not in local keychain" line; otherwise it prints the id, the user names and "REVOKED!" exactly when the key or one of its users is revoked |
| ListUsers.DescribeAllLines | bin/list.js:19-40 | the printed lines are the lines of the first ids, in order; either every id got its line, or the next id is the one whose pass threw |
| ListUsers.DescribeAllComplete | bin/list.js:19-40 | every id gets its line exactly when no pass throws |
| ListUsers.ListScriptReads | bin/list.js:18-44 | listing reads the key directory once and changes nothing else; the exit code is 0 exactly when the directory lists and every pass succeeds |
| ListUsers.ListScript | bin/list.js:18-44 | the loop method's state and printed lines are those of the listing function |
| ListUsers.DescribeAllNext | bin/list.js:19-40 | a successful pass appends its line, and a pass that throws ends the listing with that error |
| ListUsers.DescribeAllStops | bin/list.js:19-40 | once a pass throws, no later pass prints |
| ImportKeys.KeyPath | bin/import.js:42 | a key's file lies inside the temporary directory |
| ImportKeys.KeyPathInjective | bin/import.js:42 | different ids get different key files |
| ImportKeys.ImportOne | bin/import.js:37-54 | a pass throws exactly when the lookup rejects, or when a key was found and its write or import fails |
| ImportKeys.ImportOneEffect | bin/import.js:37-54 | a pass follows its plan and keeps the configuration; it writes at most the id's key file with the found key; a known id, or one with no key upstream, changes nothing |
| ImportKeys.ImportAllFollows | bin/import.js:36-55 | the loop follows the plan of its passes and keeps the configuration |
| ImportKeys.ImportAllKeepsOutside | bin/import.js:36-55 | the loop changes nothing outside the temporary directory |
| ImportKeys.ImportAllWrites | bin/import.js:36-55 | after a successful loop, each wanted id's key file holds the key the servers returned |
| ImportKeys.ImportAllComplete | bin/import.js:36-55 | the loop completes exactly when every pass would not throw |
| ImportKeys.ImportPlanWrites | bin/import.js:36-55 | the loop only writes files and runs processes |
| ImportKeys.ImportAllStops | bin/import.js:36-55 | once a pass throws, no later pass runs |
| ImportKeys.ImportRestSucceeds | bin/import.js:36-57 | the part after mkdtemp succeeds exactly when the key directory lists and every pass succeeds |
| ImportKeys.ImportRestNoRemoval | bin/import.js:36-57 | when that part throws, the temporary directory is never removed |
| ImportKeys.ImportScriptSteps | bin/import.js:21-57 | a successful import made the version probe, a fresh temporary directory, the keyring listing and a successful loop, and then removed the directory |
| ImportKeys.ImportScriptRestoresFiles | bin/import.js:21-57 | a successful import leaves the files and configuration as they were |
| ImportKeys.ImportScriptCalls | bin/import.js:21-57 | a successful import makes exactly the version probe, mkdtemp, readdir, the loop's plan and one rimraf of the directory |
| ImportKeys.ImportScriptSucceeds | bin/import.js:21-61 | import succeeds exactly when the version probe and mkdtemp succeed, the directory is fresh, the keyring listing parses, the key directory lists, and every pass would not throw |
| ImportKeys.ImportScriptKeepsTempOnError | bin/import.js:21-61 | a failed import never removes its temporary directory |
| ImportKeys.ImportScript | bin/import.js:21-61 | the method's new state and result are those of the script |
| ImportKeys.ImportUsers | bin/import.js:34-57 | the loop method's new state and result are those of getUserIds, the loop and rimraf |
| ImportKeys.ImportKey | bin/import.js:37-54 | the method's new state and result are those of one pass |

## Left out

- Console output is not modelled: the banners, `console.log`, `console.error` and `console.info`. The exceptions are the lines `list` prints and the refusal verdicts, which stand in for the refusal messages.
- The HKP network is not modelled. The two keyserver lookups are parameters (`Gpg.Keyservers`), and a rejecting lookup is an error value.
- GnuPG and openpgp are parameters (`Gpg.Keyring`). The model does not log `gpg --export`, `gpg --list-public-keys` or the armour reader, and their failures are not modelled.
- `gpg --import` is logged as a call, but it does not change the modelled keyring.
- Every git and git-crypt process is a logged call with no effect on the modelled files. `git crypt add-gpg-user` writes `.git-crypt/keys/default/0/<id>.gpg` and, when it is missing, `.git-crypt/.gitattributes`; `git crypt init` creates the repository key under `.git/git-crypt`; `git commit` and `git add` write into `.git`. None of these writes is modelled, so after a rotation followed by re-adding, the model has no vault directory and no key files, where the real repository holds one `.gpg` file per re-added user.
- GitCrypt.AddUserCalls: "no file change of its own" leaves out the key file and `.gitattributes` that add-gpg-user writes.
- GitCrypt.Init: leaves out the repository key that `git crypt init` creates under `.git/git-crypt`. It also leaves out the four configuration entries init writes (`filter.git-crypt.smudge`, `filter.git-crypt.clean`, `filter.git-crypt.required` and `diff.git-crypt.textconv`), so in the model those keys are set only by installHooks. Restore ends with installHooks, whose set calls replace those single values. A rotation that fails after init and before installHooks therefore leaves those four entries in the real configuration but not in the model's.
- Rotate.ReAddOneAdds: leaves out the key file each successful add writes under `.git-crypt/keys/default/0`.
- Rotate.ReAddAllFrame: leaves out the key files and `.gitattributes` that the re-added users' add-gpg-user calls write under `.git-crypt`.
- Rotate.RotateThenReAdd: the files after the re-add loop are those the rotation left only because the add-gpg-user writes under `.git-crypt` are not modelled.
- Remove.SkipOrAddAllFrame: leaves out the key files and `.gitattributes` that the add-gpg-user calls write under `.git-crypt`.
- Concurrency is not modelled, and the scripts are not purely sequential. In rotate and remove, the `async` callback of the second `filter` starts `gpg --export` and `parsePublicKeys` for every known id and is never awaited. Those calls, and the unhandled rejection a `parsePublicKeys` error there becomes (which ends the process with exit code 1 on Node 15 and later), are not modelled. The model only keeps that the filter keeps every id.
- `mkdirp` is a logged call that creates nothing. The model has no directories of its own, and `dirname` is part of the logged path.
- `path.join` is string concatenation with "/". It does not normalise `..` or repeated slashes.
- mkdtemp's random suffix is the decimal number of calls logged so far (`Env.Digits`). A name that is already taken makes mkdtemp fail with `EEXIST`; the real call would pick another name.
- rimraf never fails in the model.
- `stat` sizes are the lengths of the file contents. A truncating copy is a `World` parameter.
- The text of error messages is not modelled beyond the kinds of error. The exceptions are the single-key `TypeError` of parsePublicKeys and the size-mismatch fields.
- `process.exitCode` plumbing is not modelled. Exit codes are computed from the result (`Rotate.ExitCode`, `ListUsers.ListExitCode`).
- execa's `reject: false` and `stdio: 'ignore'` options only show up as the exit-code answers of `World`.
- Boolean arguments are passed to git as a `Value` rather than converted to a string.
- `Git.ValidKey` accepts any non-empty key without white space. It is not git's own rule, which is a section, a dot, an optional subsection, a dot, then a name of letters, digits and `-`. The model's rule is looser in one way: it accepts a key with no dot, which git refuses. It is stricter in another: it refuses white space, which git allows in a subsection (for example `remote.my repo.url`). The listing parse in `Git.ListingParses` and every lemma that requires `ConfigValid` therefore do not cover a configuration that holds such a key.
- Configuration keys compare as exact strings, and the listing prints each key exactly as it is stored. git treats section and variable names case-insensitively, and `git config --list --name-only` prints them in lowercase. So for a stored `Filter.git-crypt.clean`, the real removeHooks finds `filter.git-crypt.clean` in the listing and unsets it, and a real set of that key replaces the entry. The model leaves that entry alone on the unset and adds a second entry on the set. The keys the scripts write are all lowercase, so this matters only for entries written by hand in another case.
- `Git.Put` appends a new key at the end of the configuration. git inserts it into the block of an existing section with the same name. Only the order of the keys in the listing differs, which is the order `Git.ListingParses` reports.
- `Git.StageRun` refuses a missing path with the `TypeError` execa raises for an undefined argument, before any call. No caller in the scripts reaches that case: `StageEach` is only run on paths that were already copied, so each path is defined.
- `process.argv` is a plain list of strings for `remove`. The node and script paths it also contains are not distinguished, since they only take part in the membership test.
- GitCrypt.RotateLog: rimraf of `undefined`, in rotateKey's `finally` when the backup never happened, is a logged call that removes nothing. rimraf's own argument assertion is not modelled. When getStatus or backupFiles throws, the real `finally` awaits `promisify(rimraf)(undefined)`. That call rejects with rimraf's assertion error, which replaces the original error, so rotateKey throws the assertion error. The model returns the original error.
- GitCrypt.BackupEncryptedFiles: its loop is the same loop as copyFiles, run from `process.cwd()` to the backup directory. The two loops differ only in the wording of the size-mismatch message, which the model does not keep.
- The `flow-typed` declarations and `types.js` describe types only, and are part of this model through the `Gpg.ParsedKey` and `Gpg.ParsedUser` datatypes.
- The test files `lib/fs.test.js` and `lib/gpg.test.js` are not part of this model.
