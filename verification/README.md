# Coolify: verified models of the deployment and reconciliation jobs

This project models the parts of Coolify that keep recorded state in step with remote machines and
that rewrite what users deploy, and proves what they guarantee. Five parts, each in its own files:

1. **Dockerfile rewriting** (`Text`, `Dockerfile`, `ArgPass`, `ArgLaws`, `DockerLines`, `PhpCompare`, `ComposePass`,
   `SinglePass`, `SecretsPass`, `LineShapes`, `PassTexts`, `FileText`, `SavedOutput`, with `BuildEnv`, `ShellEscape`,
   `BuildEnvFile` and `SecretsHash` for the variables).
   A Dockerfile is a preamble and stages; the ARG scope of a stage is why ARGs are repeated in each
   ("Scope" under ARG in the Dockerfile reference). Three in-place passes are proved against
   stage-by-stage specifications, and the passes are related to one another.
2. **The deployment** (`Deployment`, `DeploymentJob`, `DeploymentProtocol`). `DeploymentJob.Job` is the
   job with the queue worker around it, as a class over the row's status, the containers, the helper
   containers and the commands sent. Commands may fail or lose their connection, anything may raise,
   and a cancellation may land between any two steps. `Good` is what every step keeps, `Ended` how a
   run ends, and `RunJob` says both in plain terms. `DeploymentProtocol` then splits every
   read-then-write of the status in two and says exactly what that costs.
3. **Status reconciliation** (`ContainerStatus`, `PushSpec`, `StatusText`, `PushLaws`, `PushServerUpdate`): one loop over a
   container snapshot, four not-found steps and two aggregation steps against a specification that
   looks at one resource at a time.
4. **The SSH connection cache** (`SshMultiplexing`): a master connection and a timestamp with its own
   expiry, and the real-time bound between them.
5. **The backup loop** (`DatabaseBackup`): isolation of failures, and when a local copy may go.

Step granularity of part 2: each read-then-write of the row's status is one step (the start of
`handle`, `transitionToStatus`, the cancelling loop). `DeploymentProtocol` shows that terminal
states are not kept at a finer granularity, and what is.

Modelled as parameters or as free choices: answers of remote commands and probes, whether
reporting a success or a failure raises, which server is chosen, the clock. `Config` holds
what stays fixed during a deployment; `maxRetries` is the configured number of tries. `disrupted`
records whether anything outside has gone wrong in a run, `incomplete` whether a container that was to
be removed is still there.

## What the proofs found

- The secrets pass writes nothing, not even the syntax line, if no RUN line needs a mount. The hash
  ARG of the single pass is added to the list after the splicing and never reaches the file.
- The two ARG passes recognise FROM lines differently: the compose pass by an upper-case prefix, the
  single pass by any case with white space after the word.
- An environment key with an equals sign is added again by every compose pass. Declared keys are compared
  loosely, so a numeric key counts as declared where another spelling of the number is: with the key 10,
  a stage that declares 010 is left without it. Every key that is neither ends up declared in every stage.
- The hashed text of the build secrets depends on the order in which they were inserted if two keys are
  spellings of one number, such as 1e1 and 010, or if the order of the keys goes in a circle, as for 9, 10
  and 5x; for no other keys.
- A bar in a value lets different sets of build secrets share their hashed text, and every set of two or
  more has such a partner. Of single variables exactly those have one whose value reads as a bar and a
  further variable.
- Output of commands is trimmed per chunk before it is appended, so white space next to a cut is lost from
  a Dockerfile that is read in more than one chunk. The secrets pass reads every compose service's
  Dockerfile under one name and appends: from the second service on, the Dockerfiles read before come
  first, also in what is written back.
- The comment on the escape for double quotes, and the program's own unit tests, promise that references
  such as $SOURCE_COMMIT are kept for the shell to expand. The code puts a backslash before every dollar
  sign, so the shell reads every value literally.
- A deployment that keeps the container's name stops the container of that name only; other containers of
  the application stay.
- If a rolling deployment ends finished although reporting the success raised, the failure handler has
  removed the new container after the old ones were gone: unless a removal failed, no container is left.
  The next deployment is not queued either. A failure report that raises does not take the old
  containers away, and if the rolling update had come to its rollback the new container is still removed.
- With the health check on and zero retries no probe is made, so every rolling deployment in which nothing
  else goes wrong ends failed and rolled back.
- Once the row is cancelled every command of the job raises before it is sent, so a run that finds its row
  cancelled does not stop its helper container; the canceller looks for it on the main server only. The
  write of a failed status after exhausted retries is dead code. With zero retries commands are silently
  not sent.
- The preview of a pull request is cancelled by setting the row; the failure handler of a cancelled
  run stops before it removes anything, because reading the row raises.
- A running container whose health is starting counts as healthy; a paused, dead or removed one whose health
  is starting counts as starting.
- A service part whose containers all name another service counts as found and keeps its status. The
  not-found step overwrites suffixed exited statuses of service parts but not of applications.
- For the default constants, calls less than 2100 seconds apart never hand out a master older than its
  maximum age; calls 2100 seconds apart can. Within the bound the closing command decides: a call hands
  out a stale master exactly if closing the old one has no effect and opening reports success.
- A record creation that throws marks the previous database's backup as failed. Two databases dumped to
  one file name, as when all databases are dumped within a second, lose the earlier backup.

## Model

| member | source | states |
|---|---|---|
| `Dockerfile.RenderParse` | app/Jobs/ApplicationDeploymentJob.php:3811-3818 | Reading lines as preamble and stages loses nothing: writing the reading back gives the same lines. |
| `Dockerfile.ParseRender` | app/Jobs/ApplicationDeploymentJob.php:3811-3818 | Every well-formed document is the reading of the lines it is written as. |
| `Dockerfile.FindFromLines` | app/Jobs/ApplicationDeploymentJob.php:3813-3818 | The collected positions are exactly those of the FROM lines, in increasing order (the single pass has the same loop at 3537-3549). |
| `ArgPass.ExistingStageArgs` | app/Jobs/ApplicationDeploymentJob.php:3862-3874 | The loop over the head of a stage collects exactly the keys of its leading run of ARG lines and looks no further. |
| `ArgPass.FilterMissing` | app/Jobs/ApplicationDeploymentJob.php:3876-3880 | Keeps, in order, exactly the ARG lines whose key the stage does not know. |
| `ArgPass.PatchStage` | app/Jobs/ApplicationDeploymentJob.php:3857-3886 | One round of the forward pass: the missing ARG lines are spliced in right after the FROM line at the adjusted position. |
| `ArgPass.AddMissingArgs` | app/Jobs/ApplicationDeploymentJob.php:3851-3887 | The forward pass with its running offset writes exactly the stage-by-stage result, for any line grammar; the count of added lines is the growth of the file. |
| `ArgPass.WithArgsOfStage` | app/Jobs/ApplicationDeploymentJob.php:3854-3887 | The result of one stage and of the rest of the file are independent of each other. |
| `ArgPass.WithArgsNoStages` | app/Jobs/ApplicationDeploymentJob.php:3820-3824 | A file without FROM lines is left alone. |
| `ArgLaws.ParseWithArgs` | app/Jobs/ApplicationDeploymentJob.php:3851-3887 | Reading the rewritten file finds the same preamble and the same stages, each opened by its missing ARG lines and otherwise unchanged. |
| `ArgLaws.DeclarationCount` | app/Jobs/ApplicationDeploymentJob.php:3828-3887 | After the pass a stage declares a key as often as before if it knew it, and exactly once if it did not. |
| `ArgLaws.EveryStageKnowsEveryKey` | app/Jobs/ApplicationDeploymentJob.php:3828-3887 | After the pass every stage knows every key that reads back, by its leading run of ARG lines. |
| `ArgLaws.SecondPassAddsNothing` | app/Jobs/ApplicationDeploymentJob.php:3828-3887 | For lines that read back as their own key, the pass is idempotent. |
| `ArgLaws.NothingAddedSameFile` | app/Jobs/ApplicationDeploymentJob.php:3889-3903 | If no line was counted as added, the file is the original, so not writing it back is right. |
| `ArgLaws.EraseInserted` | app/Jobs/ApplicationDeploymentJob.php:3643-3650 | Dropping the inserted lines from the head of every stage gives back the original file. |
| `ArgLaws.PassesAgree` | app/Jobs/ApplicationDeploymentJob.php:3643-3887 | On the same FROM lines the offset pass equals the insertion of all lines if and only if no stage already knows one of the keys. |
| `ArgLaws.InsertMapCommute` | app/Jobs/ApplicationDeploymentJob.php:3711-3724 | Opening stages with lines commutes with a change of single lines that touches neither FROM lines nor what the inserted lines depend on. |
| `DockerLines.ArgLineReadsBack` | app/Jobs/ApplicationDeploymentJob.php:3829-3877 | The ARG line of a stored key is no FROM and no RUN line; it reads back as what precedes the key's first equals sign, so as the key exactly if it has none. |
| `DockerLines.RunIsNeither` | app/Jobs/ApplicationDeploymentJob.php:3713-3718 | A line the secrets pass takes for a RUN line is no FROM and no ARG line to the other passes, although the passes trim differently. |
| `LineShapes.ComposeFromExactly` | app/Jobs/ApplicationDeploymentJob.php:3813-3818 | The compose pass takes a line for a FROM line if and only if it is blanks, the upper-case word, and anything. |
| `LineShapes.SingleFromExactly` | app/Jobs/ApplicationDeploymentJob.php:3537-3549 | The single pass does if and only if it is blanks, the word in any case, a white-space character, and something that trimming leaves. |
| `LineShapes.IsArgExactly` | app/Jobs/ApplicationDeploymentJob.php:3862-3874 | A line continues a stage's run of ARG lines if and only if it is blanks, the upper-case word, and anything. |
| `LineShapes.IsRunExactly` | app/Jobs/ApplicationDeploymentJob.php:3713-3718 | A line is a RUN line, indented or not, if and only if it is blanks, the upper-case word, and anything. |
| `LineShapes.DeclaredWithValue` | app/Jobs/ApplicationDeploymentJob.php:3866-3872 | An ARG line with a value declares what stands between the word and the first equals sign. |
| `LineShapes.DeclaredAlone` | app/Jobs/ApplicationDeploymentJob.php:3866-3872 | One without a value declares all that follows the word. |
| `PhpCompare.SpellingsOfTen` | app/Jobs/ApplicationDeploymentJob.php:3876-3880 | 10, 010, 1e1 and 10.0 are one key to the search among the declared keys. |
| `PhpCompare.WithExponent` | app/Jobs/ApplicationDeploymentJob.php:3876-3880 | Digits, the letter e and digits are the number they say. |
| `PhpCompare.WithFraction` | app/Jobs/ApplicationDeploymentJob.php:3876-3880 | So are digits, a point and digits. |
| `PhpCompare.NumericChars` | app/Jobs/ApplicationDeploymentJob.php:3876-3880 | Only strings of digits, signs, points, exponent letters and white space can be loosely equal to a different string. |
| `PhpCompare.AnotherSpelling` | app/Jobs/ApplicationDeploymentJob.php:3876-3880 | Every numeric key has another spelling that the search among the declared keys takes for the same. |
| `ComposePass.ModifyDockerfileForCompose` | app/Jobs/ApplicationDeploymentJob.php:3736-3905 | The compose pass with its settings on one Dockerfile; the file is written back exactly when it changed. |
| `ComposePass.StageByStage` | app/Jobs/ApplicationDeploymentJob.php:3811-3887 | For all stored keys: the text before the first FROM stays; each stage becomes its FROM line, the ARG lines of the keys it does not know, in key order, and the rest unchanged. |
| `ComposePass.EveryStageDeclaresEveryKey` | app/Jobs/ApplicationDeploymentJob.php:3828-3887 | With distinct keys, none numeric or with an equals sign, every stage declares every key after one pass, and exactly once if it did not before. |
| `ComposePass.DeclaredEverywhereExactly` | app/Jobs/ApplicationDeploymentJob.php:3828-3887 | For all stored keys: the pass makes every stage of every file declare every key if and only if no key has an equals sign and none is numeric. |
| `ComposePass.SecondPassExactly` | app/Jobs/ApplicationDeploymentJob.php:3862-3887 | For all stored keys and every file: a second pass changes nothing if and only if the file has no stage or no key has an equals sign. |
| `ComposePass.AddedAgain` | app/Jobs/ApplicationDeploymentJob.php:3866-3880 | A key with an equals sign is added to every stage again by every pass: its ARG line is there at least once more than before. |
| `PassTexts.ArgsFollowFrom` | app/Jobs/ApplicationDeploymentJob.php:3811-3887 | In every file, right after every line that is blanks, FROM and anything, the written file has the lines ARG key for the keys this stage does not know, in key order, then the stage as it was; what precedes and follows is rewritten by itself. |
| `FileText.ReadsBackExactly` | app/Jobs/ApplicationDeploymentJob.php:3811-3893 | For all stored keys: what the compose pass makes of any file survives being joined, written, read, trimmed and split again if and only if no key has a line break. |
| `FileText.SecondPassSameFile` | app/Jobs/ApplicationDeploymentJob.php:3811-3893 | For stored keys without a line break: running the compose pass on the file it wrote changes no character if and only if the file has no stage or no key has an equals sign. |
| `SavedOutput.ArrivesWholeExactly` | app/Traits/ExecuteRemoteCommand.php:155-212 | Output is trimmed chunk by chunk before it is appended: a file is read as the lines it has, however its output is cut into chunks, if and only if it has no white space between visible characters. |
| `SavedOutput.SecondFileExactly` | app/Jobs/ApplicationDeploymentJob.php:3679-3686 | A second Dockerfile read under the same name, as in the secrets pass of the second compose service, comes with the first one in front, unless that was blank. |
| `SinglePass.SpliceAfter` | app/Jobs/ApplicationDeploymentJob.php:3646-3649 | The inner loop, last line first and always at the same place, puts all lines after the FROM line in their order. |
| `SinglePass.AddBuildArgs` | app/Jobs/ApplicationDeploymentJob.php:3643-3656 | The backward nested splice equals every FROM line followed by all ARG lines in order; the hash line is pushed after the splicing and is not in the file. |
| `SinglePass.AddBuildEnvVariablesToDockerfile` | app/Jobs/ApplicationDeploymentJob.php:3551-3670 | The single pass with its settings; the hash line is nowhere in the file unless it was there before. |
| `PassTexts.VariablesFollowFrom` | app/Jobs/ApplicationDeploymentJob.php:3590-3650 | In the written file, right after every FROM line: one line per variable, ARG key=value, or ARG key if the value has several lines, and then ARG word for every generated word that is neither empty nor 0, in order. |
| `PassTexts.VariablesReadBack` | app/Jobs/ApplicationDeploymentJob.php:3590-3596 | The k-th of these lines declares the k-th key, and what follows its first equals sign is exactly the value; a variable with several lines gets no equals sign. |
| `PassTexts.GeneratedWords` | app/Jobs/ApplicationDeploymentJob.php:3598-3605 | Generated variables separated by single blanks are these words, one by one. |
| `SinglePass.ArgsAreArgLines` | app/Jobs/ApplicationDeploymentJob.php:3590-3606 | No line to insert can be taken for a FROM or RUN line, whatever the values hold. |
| `SinglePass.EraseInserted` | app/Jobs/ApplicationDeploymentJob.php:3590-3650 | For the lines actually collected: erasing the inserted lines gives back the original file. |
| `SinglePass.AgreesWithComposePass` | app/Jobs/ApplicationDeploymentJob.php:3643-3887 | For all stored keys, on files whose FROM lines both passes recognise, and for the same ARG lines: both passes write the same file if and only if no stage already knows one of the keys. |
| `SecretsPass.MountSecrets` | app/Jobs/ApplicationDeploymentJob.php:3687-3724 | The mapped file with its syntax line, and the flag that is up exactly if some line needed a mount. |
| `SecretsPass.ModifyDockerfileForSecrets` | app/Jobs/ApplicationDeploymentJob.php:3672-3734 | The secrets pass with its settings; without a RUN line in need of a mount nothing is written, not even the syntax line. |
| `PassTexts.CommandSurvives` | app/Jobs/ApplicationDeploymentJob.php:3711-3724 | In every file, a line that is blanks, RUN and anything and holds no secret mount is written as RUN, the mounts, a blank and its command, which is the rest of the line without the blanks around it. |
| `PassTexts.MountsOfAllSecrets` | app/Jobs/ApplicationDeploymentJob.php:3705-3709 | The mounts are one per secret, by its key as id and env, and one for the hash, separated by blanks. |
| `PassTexts.EverySecretIsMounted` | app/Jobs/ApplicationDeploymentJob.php:3705-3724 | So the written line holds the mount of every secret and of the hash. |
| `SecretsPass.SecretsIdempotent` | app/Jobs/ApplicationDeploymentJob.php:3672-3734 | A second run changes nothing. |
| `SecretsPass.OnlyRunLinesChange` | app/Jobs/ApplicationDeploymentJob.php:3687-3724 | Lines keep their places up to one prepended syntax line, and only RUN lines differ. |
| `SecretsPass.EveryRunIsMounted` | app/Jobs/ApplicationDeploymentJob.php:3687-3724 | If anything was written, the file starts with a syntax line and every RUN line holds a secret mount. |
| `SecretsPass.CommutesWithComposePass` | app/Jobs/ApplicationDeploymentJob.php:3672-3887 | For all keys: declaring ARGs stage by stage, then mounting secrets, equals the other order, although mounting may shift every line by one. |
| `SecretsPass.CommutesWithSinglePass` | app/Jobs/ApplicationDeploymentJob.php:3643-3734 | The same for the backward pass and the ARG lines it collects. |
| `BuildEnv.GenerateBuildtimeEnvironmentVariables` | app/Jobs/ApplicationDeploymentJob.php:1461-1668 | The dictionary, filled layer by layer, is written as one line per distinct key, in first-insertion order, each with its last value over all layers. |
| `BuildEnv.PlanPairs` | app/Jobs/ApplicationDeploymentJob.php:1484-1492 | The nixpacks plan without COOLIFY and SERVICE variables. |
| `BuildEnv.DomainPairs` | app/Jobs/ApplicationDeploymentJob.php:1520-1533 | A URL and a host variable for every service with a domain (for previews 1542-1555). |
| `BuildEnv.UserPairs` | app/Jobs/ApplicationDeploymentJob.php:1566-1602 | User variables in order, in compose builds without the generated SERVICE_FQDN and SERVICE_URL names (for previews 1617-1652). |
| `BuildEnv.DistinctFirstKeys` | app/Jobs/ApplicationDeploymentJob.php:1469-1664 | No key is written twice, none is lost, none is new. |
| `BuildEnv.FirstInsertionOrder` | app/Jobs/ApplicationDeploymentJob.php:1469-1664 | Later assignments never move a key: the order is that of first insertion. |
| `BuildEnv.LastValueConcat` | app/Jobs/ApplicationDeploymentJob.php:1469-1664 | A later layer's value wins wherever it has one. |
| `BuildEnv.GeneratedUrlNotOverridden` | app/Jobs/ApplicationDeploymentJob.php:1566-1571 | In a compose build no user variable changes a generated SERVICE_FQDN or SERVICE_URL value. |
| `BuildEnv.GeneratedUrlIsTheDomains` | app/Jobs/ApplicationDeploymentJob.php:1520-1533 | That value is the escaped URL or host of the last domain that yields the name. |
| `BuildEnv.UserOverrides` | app/Jobs/ApplicationDeploymentJob.php:1559-1602 | For every other name the user has the last word. |
| `BuildEnv.UserValueWritten` | app/Jobs/ApplicationDeploymentJob.php:1573-1602 | A user variable that passes the filter, the last under its key, has its value in double quotes, or, if literal or multi-line, its value without the single quotes at its ends in single quotes. |
| `BuildEnv.CoolifyValueWritten` | app/Jobs/ApplicationDeploymentJob.php:1500-1504 | A COOLIFY variable that no user variable overrides has its own value, quoted. |
| `BuildEnv.PlanValueWritten` | app/Jobs/ApplicationDeploymentJob.php:1484-1492 | So has a variable of the nixpacks plan that is not reserved and that nothing overrides. |
| `BuildEnv.ServiceNameWritten` | app/Jobs/ApplicationDeploymentJob.php:1506-1518 | The name variable of a service, unless a user overrides it, holds the service's name with the preview's suffix. |
| `BuildEnv.ServiceSuffixAt` | app/Jobs/ApplicationDeploymentJob.php:1516-1518 | In such a name dashes and dots are underscores and letters are upper case, character by character. |
| `ShellEscape.SingleReadsAs` | bootstrap/helpers/docker.php:1287-1300 | For every value: the shell reads the single-quoted text as the value. |
| `ShellEscape.DoubleReadsAs` | bootstrap/helpers/docker.php:1311-1325 | For every value: the shell reads the double-quoted text as the value, too, and expands nothing in it. |
| `ShellEscape.PlainExactly` | bootstrap/helpers/docker.php:1302-1325 | The double-quoted text holds the value unchanged if and only if that has no dollar sign, backquote, double quote or backslash. |
| `ShellEscape.ReferenceIsNotKept` | tests/Unit/BashEnvEscapingTest.php:186-193 | A reference to a variable, which is promised to stay as it is and be expanded, is escaped and read literally, for every name. |
| `BuildEnvFile.SourcedAsIntended` | app/Jobs/ApplicationDeploymentJob.php:1680-1695 | From end to end, for keys the shell can assign to: sourcing the written file assigns every key once, in the order of first insertion, the last value it was given, whatever characters that has. |
| `BuildEnvFile.UserVariableIntended` | app/Jobs/ApplicationDeploymentJob.php:1573-1602 | For the last user variable under its key that is its value, or, if literal or multi-line, what the single quotes at its ends enclose. |
| `BuildEnv.PlanDoesNotReserve` | app/Jobs/ApplicationDeploymentJob.php:1485-1488 | The nixpacks plan has no influence on COOLIFY and SERVICE variables. |
| `PhpCompare.ByteBeforeExactly` | app/Jobs/ApplicationDeploymentJob.php:3520 | Keys that are not both numeric go by the first character in which they differ; without one the shorter comes first, as API before API_KEY. |
| `PhpCompare.KeyOrder` | app/Jobs/ApplicationDeploymentJob.php:3520 | The order that sorting by keys goes by: of two keys one is less, never both, except that neither is if they are loosely equal. |
| `PhpCompare.CircleHasNumbers` | app/Jobs/ApplicationDeploymentJob.php:3520 | Only three keys of which at least two are numeric can each be less than the next and the last less than the first. |
| `SecretsHash.SortKeysSorts` | app/Jobs/ApplicationDeploymentJob.php:3520 | Sorting by insertion meets what is required below of a stable sort by keys, for any number of variables. |
| `SecretsHash.CanonicalExactly` | app/Jobs/ApplicationDeploymentJob.php:3515-3524 | For every stable sort by keys and every set of keys: all collections of variables with distinct keys from the set give one text in whatever order they were inserted, if and only if no two keys are spellings of one number and the order of the keys is transitive. |
| `SecretsHash.OneNumberIsOrderable` | app/Jobs/ApplicationDeploymentJob.php:3515-3524 | Keys of which at most one is numeric meet that condition. |
| `SecretsHash.TieFollowsInsertion` | app/Jobs/ApplicationDeploymentJob.php:3515-3524 | Two spellings of one number, such as 1e1 and 010, give two different texts, one for each order of insertion, whatever their values. |
| `SecretsHash.NineTenFiveX` | app/Jobs/ApplicationDeploymentJob.php:3515-3524 | So do the keys 9, 10 and 5x, whatever their values, because each is less than the next and the last less than the first. |
| `SecretsHash.TextDeterminesVariables` | app/Jobs/ApplicationDeploymentJob.php:3515-3524 | For every such sort: if no key holds an equals sign or bar and no value a bar, equal texts come from equal variables; the converse holds where the keys meet the condition above. |
| `SecretsHash.DeterminedExactly` | app/Jobs/ApplicationDeploymentJob.php:3515-3524 | Among variables whose keys hold no equals sign or bar, the text determines no collection of two or more, and a single variable if and only if no bar in its value is followed by a further key, which the sort leaves behind its own, and an equals sign. |
| `Deployment.SetStatusKeeps` | app/Jobs/ApplicationDeploymentJob.php:4088-4131 | Writing a status on a row that is not terminal keeps the invariant of every run. |
| `Deployment.IssueKeeps` | app/Traits/ExecuteRemoteCommand.php:88-103 | Sending a command on a row that is not cancelled, to the right server, keeps it. |
| `DeploymentJob.Job.Interleave` | app/Jobs/DeleteResourceJob.php:127-165 | Between any two steps the row may be cancelled, as one read-then-write, from queued or in progress only; the canceller may remove the helper container on the main server, and on no other, and, for a preview, its containers. |
| `DeploymentJob.Job.TryOnce` | app/Traits/ExecuteRemoteCommand.php:155-238 | One try: it may or may not take effect when it fails; a cancellation seen afterwards is raised with code 69420. |
| `DeploymentJob.Job.TryAndWait` | app/Traits/ExecuteRemoteCommand.php:103-132 | A lost connection is tried again only if a try is left and the row is not cancelled while waiting. |
| `DeploymentJob.Job.Exec` | app/Traits/ExecuteRemoteCommand.php:61-150 | A command is not sent on a cancelled row; it is sent at most as often as tries are configured; the write of a failed status after the retries is never reached; with zero retries nothing is sent. |
| `DeploymentJob.Job.TransitionToStatus` | app/Jobs/ApplicationDeploymentJob.php:4088-4121 | A terminal row is left as it is, a cancelled one raises 69420, any other gets the status, its notification and the queueing of the next deployment once. |
| `DeploymentJob.Job.EnterStatus` | app/Jobs/ApplicationDeploymentJob.php:4088-4174 | Exactly the status, the report and the history change; it raises exactly when reporting that status does, and then the next deployment is not queued. |
| `DeploymentJob.Job.PrepareBuilderImage` | app/Jobs/ApplicationDeploymentJob.php:1984-2023 | On a normal end the start of the helper was sent to the server that builds, and if nothing went wrong it runs there; no status change but a cancellation, no application container touched. |
| `DeploymentJob.Job.CreateWorkdir` | app/Jobs/ApplicationDeploymentJob.php:1954-1982 | Visits the main server and, on a normal end, comes back to the build server. |
| `DeploymentJob.Job.CopyToMain` | app/Jobs/ApplicationDeploymentJob.php:956-1012 | Copies to the main server and, on a normal end, comes back to the build server. |
| `DeploymentJob.Job.SaveRuntimeEnvironmentVariables` | app/Jobs/ApplicationDeploymentJob.php:1352-1459 | As above for the runtime variables, including the path that leaves early. |
| `DeploymentJob.Job.BuildTheImage` | app/Jobs/ApplicationDeploymentJob.php:2939-3261 | The build command goes to the server that builds. |
| `DeploymentJob.Job.PushToDockerRegistry` | app/Jobs/ApplicationDeploymentJob.php:1014-1070 | A built image that should be pushed is pushed, from the server that builds. |
| `DeploymentJob.Job.GracefulShutdownContainer` | app/Jobs/ApplicationDeploymentJob.php:3263-3280 | Removes at most the named container, never raises, and records whether the container is still there. |
| `DeploymentJob.Job.StartByComposeFile` | app/Jobs/ApplicationDeploymentJob.php:3327-3356 | Adds at most the new container; on a normal end it was told to start and, in a rolling update, runs. |
| `DeploymentJob.Job.HealthRound` | app/Jobs/ApplicationDeploymentJob.php:1851-1891 | One probe, and a pause of one interval exactly if it left the matter open. |
| `DeploymentJob.Job.HealthCheck` | app/Jobs/ApplicationDeploymentJob.php:1823-1901 | At most `retries` probes and start period + retries x interval seconds of sleep, whatever the probes say. On a normal end the probes stop at the first decisive one or at the limit, the sleep is the start period and one interval per undecided probe, and the version is healthy exactly if the decisive probe says so. |
| `DeploymentJob.Job.StopOldContainers` | app/Jobs/ApplicationDeploymentJob.php:3288-3299 | In a rolling update the new container stays, and unless cancelled or a removal failed it alone is left. |
| `DeploymentJob.Job.StopRunningContainer` | app/Jobs/ApplicationDeploymentJob.php:3282-3325 | Healthy: the new container has taken over. Not healthy: the row is failed first, then only the new container is removed. |
| `DeploymentJob.Job.StopThenStart` | app/Jobs/ApplicationDeploymentJob.php:1789-1808 | Without a rolling update what is to be replaced is stopped before the new container starts: the container whose name is kept, or else all others. If nothing goes wrong, on a normal end the new one has replaced exactly that. A preview has a fixed name from here on. |
| `DeploymentJob.Job.StopReplaced` | app/Jobs/ApplicationDeploymentJob.php:3286-3299 | Stops and removes the container whose name is kept, or else the listed ones; if nothing went wrong those and no others are gone, and the stop of each was sent. |
| `DeploymentJob.Job.StopStack` | app/Jobs/ApplicationDeploymentJob.php:751-763 | A stack is stopped in that way before its network is set up, so that it may start then. |
| `DeploymentJob.Job.ReplaceComposeStack` | app/Jobs/ApplicationDeploymentJob.php:751-852 | A stack that is deployed without anything going wrong has replaced what it should. |
| `Deployment.IssueInOrder` | app/Jobs/ApplicationDeploymentJob.php:1807-1808 | Sending a command keeps the order of stops before starts, if a start is sent only when it may be. |
| `DeploymentJob.Job.RollingUpdate` | app/Jobs/ApplicationDeploymentJob.php:1772-1821 | With a build server the containers are handled on the main server; a normal end is a switch or a rollback, an exception leaves the old containers in place. |
| `DeploymentJob.Job.DecideWhatToDo` | app/Jobs/ApplicationDeploymentJob.php:461-519 | The dispatcher ends with a completed or rolled-back deployment or with an exception in a state the failure handler can deal with; it is re-entered at most once, because `restart_only` is cleared first. |
| `DeploymentJob.Job.JustRestart` | app/Jobs/ApplicationDeploymentJob.php:1113-1133 | A restart, with or without a rebuild, ends like a deployment; completing it again changes nothing. |
| `DeploymentJob.Job.ShouldSkipBuild` | app/Jobs/ApplicationDeploymentJob.php:1135-1175 | Skips the build only with an existing image; a restart that needs a build re-enters the dispatcher with `restart_only` cleared. |
| `DeploymentJob.Job.SavePushAndRoll` | app/Jobs/ApplicationDeploymentJob.php:544-550 | The tail shared by the build paths: save, push what was built, replace the containers. |
| `DeploymentJob.Job.DeploySimpleDockerfile` | app/Jobs/ApplicationDeploymentJob.php:521-550 | Builds and pushes on the build server if one was chosen, containers on the main server. |
| `DeploymentJob.Job.DeployFromRepository` | app/Jobs/ApplicationDeploymentJob.php:854-954 | The same for Dockerfile, nixpacks and static builds, with or without a reused image. |
| `DeploymentJob.Job.DeployPullRequest` | app/Jobs/ApplicationDeploymentJob.php:1917-1952 | The same for previews, which count as healthy from the start. |
| `DeploymentJob.Job.DeployDockerImageBuildpack` | app/Jobs/ApplicationDeploymentJob.php:552-574 | An image from a registry is deployed without a build. |
| `DeploymentJob.Job.DeployDockerComposeBuildpack` | app/Jobs/ApplicationDeploymentJob.php:576-852 | A compose file that cannot be parsed fails the job, after which the dispatcher goes on and changes nothing more; otherwise the stack is stopped and started. |
| `DeploymentJob.Job.Fail` | app/Jobs/ApplicationDeploymentJob.php:346-351 | A job is failed once; later failures of it change nothing. |
| `DeploymentJob.Job.HandleFailure` | app/Jobs/ApplicationDeploymentJob.php:4204-4254 | On a cancelled row the handler stops before it sends any command; otherwise it tells the new container to go, unless its name is fixed or it is a stack, and the row ends failed with the old containers in place, or stays finished. |
| `DeploymentJob.Job.Finally` | app/Jobs/ApplicationDeploymentJob.php:352-381 | The stop of the helper is sent to the server it was started on, also after an exception midway, but not by a run that finds its row cancelled; if nothing went wrong no helper is left running. |
| `DeploymentJob.Job.Handle` | app/Jobs/ApplicationDeploymentJob.php:266-388 | A run cancelled while queued does nothing; every other one ends in a terminal state or hands an exception to the queue worker. |
| `DeploymentJob.Job.RunJob` | app/Jobs/ApplicationDeploymentJob.php:266-388 | Every run from the queue, with cancellations, failures and exceptions anywhere: ends terminal, never leaves a terminal state, finishes if nothing outside goes wrong and the health check does not say unhealthy (compose applications aside), is reported once and by one notification, keeps a rolling application up at every moment unless reporting the success raises, leaves only the new container when healthy and only the old ones when not; in every other deployment that finishes with nothing having gone wrong leaves the old containers with the new one in place of its namesake if it keeps the name, and the new one alone if not, and wherever that is stopped first sends no start before the stops (the rollback: if reporting the failure raises, once the rolling update has come to its rollback), sends commands to the right servers and none after a cancellation, has sent the stop of every helper unless cancelled, and leaves no helper running if nothing went wrong. |
| `DeploymentProtocol.TerminalKeptExactly` | app/Jobs/ApplicationDeploymentJob.php:4088-4121 | When reading and writing the status are separate steps: terminal states survive a run if and only if every write that changes the row would still pass its own check at that moment. |
| `DeploymentProtocol.AtomicStepsKeepTerminal` | app/Jobs/ApplicationDeploymentJob.php:269-279 | With each read-then-write as one step no interleaving of the job with any number of cancellers leaves a terminal state. |
| `DeploymentProtocol.UndisturbedIsRevalidated` | app/Jobs/DeleteResourceJob.php:128-141 | More generally, it is enough that nobody changes the row between an actor's read and its write. |
| `DeploymentProtocol.ReportsAtMostOnce` | app/Jobs/ApplicationDeploymentJob.php:4088-4096 | However reads and writes interleave, the job reports at most one final status: the next deployment is queued at most once, success and failure are never both sent. |
| `DeploymentProtocol.SplitStepsLoseTerminal` | app/Jobs/DeleteResourceJob.php:128-141 | In every running or queued state: a cancelled deployment can finish, a finished one can be marked cancelled, one cancelled in the queue can start. |
| `DeploymentProtocol.RunningIsReached` | app/Jobs/ApplicationDeploymentJob.php:266-279 | The running state of these races is reached from the queue. |
| `ContainerStatus.AggregateFromStrings` | app/Services/ContainerStatusAggregator.php:47-114 | The loop over the status strings computes the aggregate of the set of strings: order and repetition do not matter. |
| `ContainerStatus.CalculateStatus` | app/Jobs/PushServerUpdateJob.php:299-326 | The status of a resource from its containers' statuses, excluded containers left out, or the excluded form if all are (for service parts 368-396). |
| `ContainerStatus.AppendExcludedSuffix` | app/Traits/CalculatesExcludedStatus.php:72-96 | A non-empty status stays non-empty, so the job's emptiness checks on it never matter. |
| `ContainerStatus.GoneButTracked` | app/Jobs/PushServerUpdateJob.php:603-623 | A dead or removed container is tracked if and only if its health text mentions a tracked state, such as starting, although the code's comment says it never is. |
| `StatusText.ContainerFlags` | app/Services/ContainerStatusAggregator.php:73-98 | What the text of one container puts up, in terms of its state and health, for all states and healths Docker reports; a paused or gone container whose health is starting counts as starting. |
| `StatusText.TrackedText` | app/Jobs/PushServerUpdateJob.php:603-623 | Such a container counts as running exactly if its state is, and is tracked exactly if it has neither exited nor gone, or its health is starting. |
| `StatusText.AggregateIsVerdict` | app/Services/ContainerStatusAggregator.php:205-275 | The status of a group of containers is the first line of the priority list that applies to their states and healths, as texts. |
| `StatusText.ExcludedIsVerdict` | app/Traits/CalculatesExcludedStatus.php:72-96 | The same for a group that is excluded as a whole, with the excluded form of each text. |
| `StatusText.CrashLoop` | app/Services/ContainerStatusAggregator.php:205-230 | Where restarts are counted, an exited container and a positive count make the group degraded unless something restarts; a negative count is none. |
| `PushLaws.PreviewText` | app/Jobs/PushServerUpdateJob.php:171-177 | A preview with containers ends with the last one's state, a colon and its health, or unknown if it has none; exited if it has exited or has no state. |
| `PushLaws.DatabaseText` | app/Jobs/PushServerUpdateJob.php:171-177 | The same for a database and its tracked containers. |
| `PushLaws.TrackedExactly` | app/Jobs/PushServerUpdateJob.php:236-258 | Which containers those are, by their fields. |
| `PushLaws.ApplicationsExactly` | app/Jobs/PushServerUpdateJob.php:190-211 | Which containers are an application's and which a preview's, by their labels: no pull request is pull request 0. |
| `PushLaws.PartsExactly` | app/Jobs/PushServerUpdateJob.php:214-246 | Which containers are a service part's, by their labels. |
| `PushLaws.PartOfOthers` | app/Jobs/PushServerUpdateJob.php:332-399 | A part whose containers all name another service keeps its status. |
| `PushLaws.ApplicationText` | app/Jobs/PushServerUpdateJob.php:282-330 | An application with containers ends with the verdict on the last ones under each name that is not excluded, or, if all are, with the excluded verdict on all. |
| `PushLaws.PartText` | app/Jobs/PushServerUpdateJob.php:332-399 | The same for a service part and the containers that name its service. |
| `PushLaws.ApplicationOfOne` | app/Jobs/PushServerUpdateJob.php:282-330 | With one container that counts and runs: running:healthy, running:unhealthy or running:unknown as its health says; the health starting counts as healthy. |
| `PushLaws.ApplicationOfMixed` | app/Jobs/PushServerUpdateJob.php:282-330 | With one running and one exited container that count and none that restarts: degraded:unhealthy. |
| `PushLaws.NothingFound` | app/Jobs/PushServerUpdateJob.php:401-594 | What has no container in a snapshot ends with a status that starts with exited, its own if that does already; applications on several servers keep theirs. |
| `PushSpec.LastStatus` | app/Jobs/PushServerUpdateJob.php:205-211 | A preview or database has a status from the snapshot exactly if one of its containers is in it. |
| `PushSpec.Pushed` | app/Jobs/PushServerUpdateJob.php:143-280 | The statuses after a push, resource by resource, cover exactly the recorded resources. |
| `PushSpec.TwiceIsOnce` | app/Jobs/PushServerUpdateJob.php:143-280 | Handling the same snapshot twice leaves the same statuses as handling it once. |
| `PushSpec.OrderDoesNotMatter` | app/Jobs/PushServerUpdateJob.php:170-262 | Snapshots with the same containers give the same statuses if no two containers claim one key with different statuses. |
| `PushSpec.PermutationGivesSameStatuses` | app/Jobs/PushServerUpdateJob.php:170-262 | Any permutation of a snapshot without repeated keys gives the same statuses. |
| `PushSpec.OrderDecidesUnderOneKey` | app/Jobs/PushServerUpdateJob.php:205-211 | Whichever of a preview's containers is listed last decides its status. |
| `PushSpec.PreviewOrderExactly` | app/Jobs/PushServerUpdateJob.php:205-211 | A preview gets one status from all permutations of a snapshot if and only if all its containers in it have one. |
| `PushSpec.DatabaseOrderExactly` | app/Jobs/PushServerUpdateJob.php:249-258 | The same for the tracked containers of a standalone database. |
| `PushServerUpdate.PushServerUpdateJob.ProcessContainer` | app/Jobs/PushServerUpdateJob.php:170-262 | One round of the loop keeps the found lists, the status maps and the written statuses equal to what the containers seen so far say. |
| `PushServerUpdate.PushServerUpdateJob.CollectAll` | app/Jobs/PushServerUpdateJob.php:170-262 | After the loop they say what the whole snapshot says. |
| `PushServerUpdate.PushServerUpdateJob.UpdateNotFoundApplicationStatus` | app/Jobs/PushServerUpdateJob.php:431-448 | Single-server applications that were not found become exited unless their status starts so already; the others keep theirs. |
| `PushServerUpdate.PushServerUpdateJob.UpdateNotFoundApplicationPreviewStatus` | app/Jobs/PushServerUpdateJob.php:450-488 | The same for previews. |
| `PushServerUpdate.PushServerUpdateJob.UpdateNotFoundDatabaseStatus` | app/Jobs/PushServerUpdateJob.php:545-574 | The same for databases, one by one. |
| `PushServerUpdate.PushServerUpdateJob.UpdateNotFoundServiceStatus` | app/Jobs/PushServerUpdateJob.php:576-594 | Service parts that were not found become exited, also if their status had a suffix. |
| `PushServerUpdate.PushServerUpdateJob.AggregateMultiContainerStatuses` | app/Jobs/PushServerUpdateJob.php:282-330 | Exactly the applications with containers get their aggregated status. |
| `PushServerUpdate.PushServerUpdateJob.AggregateServiceContainerStatuses` | app/Jobs/PushServerUpdateJob.php:332-399 | Exactly the parts with containers that name their own service get their aggregated status. |
| `PushServerUpdate.PushServerUpdateJob.Handle` | app/Jobs/PushServerUpdateJob.php:108-280 | Every recorded status ends as the per-resource specification says, and no resource is both marked exited and given a container status. |
| `SshMultiplexing.Helper.GetConnectionAge` | app/Helpers/SshMultiplexingHelper.php:301-311 | The age by the cached timestamp, or none once the cache has dropped it. |
| `SshMultiplexing.Helper.EnsureMultiplexedConnection` | app/Helpers/SshMultiplexingHelper.php:27-67 | The step-by-step method equals the decision taken at a glance, in every state and for all answers. |
| `SshMultiplexing.NoStaleMaster` | app/Helpers/SshMultiplexingHelper.php:27-94 | With calls less than (persist time + 300 - maximum age) apart, and a close that works whenever a call closes a master, no call in any run hands out a master older than the maximum age. |
| `SshMultiplexing.BoundIsExact` | config/constants.php:69-72 | The exact bound for all settings: no run hands out a stale master if and only if the helper is off or the gap is within the bound, which for the configured constants is 2100 seconds. |
| `SshMultiplexing.StaleCallExactly` | app/Helpers/SshMultiplexingHelper.php:27-110 | After any run within the bound the next call hands out a stale master if and only if there is one that is too old, closing it has no effect, and opening reports success. |
| `SshMultiplexing.UnhealthyHandedOutExactly` | app/Helpers/SshMultiplexingHelper.php:58-94 | A master found unhealthy is handed out if and only if closing it has no effect and opening reports success; otherwise the call answers with a new one or with none. |
| `SshMultiplexing.HealthyHandedOut` | app/Helpers/SshMultiplexingHelper.php:43-67 | A healthy master that is not too old by its stamp is handed out as it is, and stamped if it was not. |
| `SshMultiplexing.StaleFrom` | app/Helpers/SshMultiplexingHelper.php:43-51 | Beyond the bound there is a run that hands out a stale master, stamped as new after its timestamp expired. |
| `DatabaseBackup.FreshIdentifier` | app/Jobs/DatabaseBackupJob.php:299-308 | At most three tries; gives up exactly if all three identifiers are taken. |
| `DatabaseBackup.DatabaseBackupJob.LocalBackup` | app/Jobs/DatabaseBackupJob.php:314-405 | One record per created row, the dump in its file, and success exactly if something was written. |
| `DatabaseBackup.DatabaseBackupJob.BackupOne` | app/Jobs/DatabaseBackupJob.php:298-449 | One round of the loop equals the outcome function. |
| `DatabaseBackup.DatabaseBackupJob.BackupAll` | app/Jobs/DatabaseBackupJob.php:298-449 | The loop equals the fold of that function; it ends early only when no identifier is found. |
| `DatabaseBackup.RecordsExactly` | app/Jobs/DatabaseBackupJob.php:311-405 | The record of every database at the end: its own outcome, turned into a failure exactly when the creation that follows it throws. |
| `DatabaseBackup.IsolationExactly` | app/Jobs/DatabaseBackupJob.php:298-449 | Each database gets exactly one record with its own outcome if and only if no record creation throws: final, a success naming its file exactly if the local backup succeeded, uploaded or not as the upload went if one was due, and its local copy deleted only after an upload. |
| `DatabaseBackup.CreationFailureHitsPrevious` | app/Jobs/DatabaseBackupJob.php:391-405 | In every run in which a creation throws right after that of database i: the record of i, final and telling its outcome before, ends failed and without a file name, although with distinct file names a successful dump is still there. |
| `DatabaseBackup.SuccessSurvives` | app/Jobs/DatabaseBackupJob.php:407-440 | With distinct file names every success has a surviving copy of its own dump, local or in S3, and a local copy goes only after that database's own upload. |
| `DatabaseBackup.SharedNameLosesBackup` | app/Jobs/DatabaseBackupJob.php:317-320 | Two databases under one file name: in a run in which nothing fails the earlier backup is lost. |
| `DatabaseBackup.SurvivalExactly` | app/Jobs/DatabaseBackupJob.php:317-440 | For any list of file names: every success keeps its own dump, in every run over them, if and only if the names are pairwise distinct. |

## Left out

- Swarm deployments and the multi-server status check: unfinished or decided in code outside these files.
- Restart, compose and image deployments together with a chosen build server are modelled, but nothing is claimed about their hosts: the code starts and stops the helper on different servers there.
- DeploymentJob.Job.RunJob: does not promise that a helper is gone after a run that was cancelled or in which something went wrong; the job sends no stop after a cancellation, and a stop may have no effect.
- DeploymentJob.Job.RunJob: that an undisturbed run finishes is not claimed for compose applications, whose restart takes the rolling path although their failures are not rolled back.
- DeploymentJob.Job.RunJob: availability is claimed when reporting the success does not raise and containers do not stop by themselves; a worker killed by its timeout is not modelled.
- DeploymentJob.Job.BuildTheImage: one command stands for the build commands of all build packs.
- DeploymentJob.Job.DeployDockerComposeBuildpack: the stack is one container; its services, networks and custom commands are not told apart.
- DeploymentJob.Job.Interleave: cancellation from the deployment page, which writes without looking at the status, is not modelled; other writers of the row are not either.
- PhpCompare.LooselyEqual: numbers are compared exactly; the code compares them at double precision, so very long numbers that differ can count as the same key there.
- SecretsHash.CanonicalExactly: the keyed hash itself; of the language's own sort only stability, the order and what it does to up to three pairs in step is used; numeric keys are compared exactly, not at double precision.
- SecretsHash.DeterminedExactly: is about sorting by insertion; where the order goes in a circle, another stable sort may arrange four or more pairs differently.
- FileText.ReadsBackExactly: takes a file as read whole; what reading in chunks does to it is SavedOutput.ArrivesWholeExactly.
- SecretsPass.ModifyDockerfileForSecrets: takes the service's own file as read; that `dockerfile_content` keeps what earlier services read is SavedOutput.SecondFileExactly.
- SavedOutput.ArrivesWholeExactly: error output, which is saved with the rest, and the replacement of invalid UTF-8.
- BuildEnvFile.SourcedAsIntended: keys that the shell cannot assign to, such as my-key, of which it makes commands; the null character; an empty file.
- BuildEnv.GenerateBuildtimeEnvironmentVariables: splitting a domain into URL and host, YAML parsing, upper-casing outside ASCII, and the runtime variables, which follow the same pattern.
- SinglePass.AddBuildEnvVariablesToDockerfile: which variables the query selects, and a value with a line break, which would be several lines of the written file.
- PushServerUpdate.PushServerUpdateJob.Handle: proxies, log drain, TCP proxies, disk checks, timestamps of last contact, and PHP's loose comparison of identifiers.
- PushLaws.ApplicationText: states and healths that Docker does not report; a text that mentions several states is read as ContainerStatus.FlagsOf says.
- ContainerStatus.CalculateStatus: which containers a compose file excludes is an input.
- SshMultiplexing.Helper.EnsureMultiplexedConnection: one reading of the clock per call, no cache eviction other than expiry; a command opens a master itself only after the last answer was positive; keys on disk are not modelled.
- DatabaseBackup.DatabaseBackupJob.BackupAll: the four dump commands, messages, sizes, retention of old backups, and notifications or record updates that raise.
- Backup and restore of applications, scheduling jobs, subscriptions, Livewire components and API controllers: they neither rewrite files nor drive the machines of the parts above.
