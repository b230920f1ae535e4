# Verified model of the Coriolis STACKIT installer

The installer keeps no state file. Whatever it knows about an interrupted run it reads back
from labels in the cloud, from files on a helper VM or from files on the appliance, and every
run must be safe to stop anywhere and to start again. This project models the protocols that
carry this promise, each with its failures, and proves what they keep over every sequence of
interrupted runs. Some of the promises hold only under a condition; then the condition is
stated and a concrete input shows the failure without it.

`dafny verify dfyconfig.toml` checks everything.

## How the program is modelled

| file | part of the installer |
|---|---|
| `World.dfy`, `CloudApi.dfy` | the cloud's resources, what API calls change, how calls fail, what is recorded about runs |
| `SecurityGroups.dfy`, `HelperAccess.dfy`, `Normalization.dfy`, `Images.dfy` | image normalization: search, reuse, helper VM, volumes, export, cleanup, sharing |
| `Upload.dfy`, `Ova.dfy`, `Scratch.dfy` | the disk in the OVA, its resumable transfer to the helper, the space it needs |
| `OutputWindow.dfy` | streaming the output of a remote command through a rolling window |
| `Bootstrap.dfy`, `Certificate.dfy` | the password and certificate scripts on the appliance |
| `Progress.dfy` | nested progress activities and their heartbeats |
| `Enablement.dfy`, `PublicIp.dfy`, `Nics.dfy` | enabling the Run Command service, assigning the public IP, finding a server's NIC |

**Failures and interruptions.** A changing API call succeeds, fails without effect, or takes effect
although its answer is lost. A run that is stopped after some call is the run in which every later
call fails without effect, so that quantifying over all failures also quantifies over all points of
interruption. `CloudApi.Cloud` records, for the proofs only, an event log, what every reading call
answered, the image identifiers used and every earlier state of the cloud; an invariant of "every
state" is one of the present state and every recorded one. It also records every error with its
cause: a call that failed, a helper shown without an interface, or a wait that ended in vain. A
cause of the last kind counts only if the recorded answers show it: one of them shows that what is
awaited is gone or has failed, or all that there was time for show that the wait is not over
(`CloudApi.Justified`). So no operation can give up early or without a reason. Errors that end an
operation are kept apart from those that the installer only reports, as in the cleanup (warnings),
and from those after which it goes on another way, as with a helper that is not ready (tolerated).
The cloud moves by itself whenever it is read: imports finish or fail, volumes and servers change
status, deleted servers vanish and their addresses detach (`World.Evolved`). It also moves between
the last answer and a request that is based on it. Only where a missing volume, address, keypair or
group is created, and in the loops that delete what one listing showed (stale helpers and access),
does it stand still. The number of answers that a wait has time for (`polls`) belongs to each run,
and so does whether an unfinished import is older than 30 minutes (`stale`); polling intervals are
not modelled.

**Assumptions.** One installer at a time works on a project and hash, and nobody else creates,
labels or deletes its resources. An image-share update adds projects and removes none. A listing
shows everything that exists at that time. The identifier of a deleted image is not used again.
SHA-256 has no collisions. On the helper one process at a time writes the partial file. A bootstrap
script that is started again after a transient failure of the Run Command call
(installer/bootstrap.go:198-206) starts when the earlier one has ended, not beside it. The vendor
command that exposes Coriolis copies the password of the Kolla file to Keystone and OpenRC, in part
or completely, and changes no other password. The active paths of the certificate script are regular
files or absent (a symbolic link would be copied as a link and written through), and vendor commands
leave the backup directory alone.

**Labels.** A missing label prints as the string `<nil>`, which is not the empty string, and the
model compares labels as they print.

## Main results

*Normalization.* Over any sequence of runs, in every intermediate state, a project has at most one
live helper and at most one unfinished import for a hash (`Images.RunRepeatedly`). The second part
needs, for each run with a configured `image.id`, that no other image of the hash is an unfinished
import in the owner project when the run starts. `Images.StaleBranchKeepsOneImport` shows that
rebuilding a configured image keeps the invariant exactly then, `Images.ConfiguredImageCanDouble`
gives a state where it does not hold, and `Images.EnsureImage` says of whole runs that one which
builds an image beside an import that stays unfinished has broken the invariant. A volume disappears
only after the image exported from it in that run was seen AVAILABLE, an image is filled only from a
source that was probed ready or was staged, converted and prepared in that run, and a normalization
without `image.id` starts only after the listings of target and owner project showed no AVAILABLE
image (`Images.EnsureImage`). A successful run without a warning leaves no helper, address, keypair
or security group of that hash (`NormalizationRun.NormalizeAndUploadImage`). An immediate second run
changes nothing if every image that the search may pick is prepared (`Images.RunTwice`);
`Images.PickedIsPrepared` shows that this is exactly the condition, `Images.RivalIsShared` a state
where it fails.

*Recovery.* After any number of stopped runs, one more run provides a ready image exactly if no
error ends it, and every error has a cause that the answers show (`Images.RecoverAfterRuns`): so it
provides one whenever every call is answered and whatever it waits for comes in time and does not
fail (`CloudApi.SettledInTime`, `CloudApi.NothingWentWrong`). What the installer tolerates does not
count, in particular a leftover helper that it finds but cannot resume on
(`NormalizationRun.TryResume`), a failing answer while it waits for a shared image to become
visible, and every warning of the cleanup; a run that builds the image without such warnings leaves
no helper and no access behind. A configured image has to be readable, to belong to the OVA and to
be normalized if it has to be. Recovery has two dead ends. A run that withdraws a stale configured
import, whether it then rebuilds the image or is stopped, leaves a configuration with which every
later run fails and changes nothing (`Images.RunWithoutImage`), until `image.id` is removed or
corrected. And an unfinished import that is not of the owner project is waited for, but never
withdrawn: as long as it stays unfinished and no finished image can be seen, every run fails and
changes nothing (`Images.RunBesideImport`). A stopped run without owner project leaves such an
import for runs that name one (`Images.StoppedRunBlocks`). A search meets it exactly if the owner
project is not the target and the target has an unfinished import of the hash
(`Images.AwaitedWhen`); otherwise, once it is stale, an unfinished import is withdrawn and not
waited for (`Images.FindReusable`).

*Labels.* Over any sequence of runs, whatever there is carries the installer's labels or was there
before, with the labels it has now (`Images.RunRepeatedly`, `World.Labelled`), so nothing that a run
creates can get lost. After a build without warnings, a group with the name of the helper's group is
one that was there before without label (`NormalizationRun.NormalizeAndUploadImage`). A run uploads
the disk again only if no helper was found, or resuming on it failed.

*Upload.* The partial file is always a prefix of the disk and the final file the whole disk, for
arbitrary truncated writes, so success means the helper holds exactly the disk, and bytes
appended equal the bytes that were missing (`Upload.UploadOVAToHelper`). The byte count relies on
the size found in the OVA; `Ova.SizeIsStreamed` tells exactly when that is the size streamed, and
`Ova.UnnamedMemberMisleads` gives an archive for which it is not.

*Archive.* An archive is accepted exactly if it can be read, has one disk and a size for it
(`Ova.AcceptedExactly`), and each field is the last entry of its kind in the archive
(`Ova.HardwareIsFound`, `Ova.TextsAreFound`, `Ova.DiskIsFound`); a descriptor written in decimal is read
back (`Ova.DecimalIsReadBack`).

*Scratch space.* A volume of an accepted size holds everything in every state of any sequence of
interrupted uploads, imports and exports, as long as no status answer is unreadable
(`Scratch.RunsFit`). After an unreadable one the disk may be sent again beside the staged one, and
then there has to be room for it twice: `Scratch.UnreadableStatusDoubles` shows that this is exact,
`Scratch.SmallestHoldsOnce` that the smallest accepted size does not have that room.

*Output window.* A reset means exactly that no overlap is findable
(`OutputWindow.CommandOutputDelta`); every overlap of up to 64 bytes is, and every longer one if
the probe does not overlap itself in the previous output (`OutputWindow.OverlapIsFindable`,
`OutputWindow.SelfOverlappingProbeIsMissed`). Smooth windows reproduce the stream without a reset,
and the text printed always ends with the latest output (`OutputWindow.WaitRunCommand`).

*Bootstrap.* From every state left by stopped runs the password chosen by the next run gives
access, and an undisturbed run makes all four copies equal (`Bootstrap.BootstrapRepeatedly`): always
with a configured password, and with a generated one unless a write of the password file was cut
off while Keystone and OpenRC differed. A further run changes none of the copies, except for a
password file whose write is cut off (`Bootstrap.BootstrapAppliance`). `Bootstrap.CutOffWriteIsHarmless` states that condition
exactly, `Bootstrap.CutOffWriteLosesAccess` what is lost otherwise.

*Certificate.* A failure after the trap restores the nine active paths whatever was written, even
if paths coincide or enclosing shells run the rollback again after the vendor command that ends it
(`Certificate.Appliance.Apply`).

*Progress.* For every interleaving of actions and heartbeats, the lines of every activity are START,
then INFO or WAIT, then DONE or FAIL, they nest, the stack is restored, and waiting for the
heartbeat never deadlocks (`Progress.LinesOverAllRuns` and the lemmas after it). An outer WAIT can
follow an inner START, but exactly when the outer heartbeat had checked that it is in the
foreground and not written yet when the inner activity began, and only once
(`Progress.OuterWaitIsPending`, `Progress.OuterWaitAfterBegin`).

## Where the code and what it says differ

- The warning that a configured image without hash label is used anyway
  (installer/stackit.go:203-205) is never printed for an image without that label: the label prints as
  `<nil>`, and installer/stackit.go:200 refuses it. The model follows the code (`Images.UnlabelledImageIsRefused`).
- A failed transfer is announced as a retry from the beginning (installer/helper_transfer.go:340);
  the next attempt resumes at the size of the partial file, as docs/en/architecture.md:44 says.

## Model

| member | source | states |
|---|---|---|
| `World.CreateImageKeepsOneImport` | installer/normalization.go:540-553 | requesting an import keeps "one unfinished import per project and hash" if and only if the project had none |
| `World.CreateServerKeepsOneHelper` | installer/normalization.go:345-372 | starting a helper keeps "one live helper per project and hash" if and only if none is live |
| `World.LabelledTrans` | installer/normalization.go:197-211 | that everything new is labelled holds over two stretches if it holds for each |
| `World.AccessLabels` | installer/helper_transfer.go:72-128 | an address, keypair or group is found again exactly by the labels and the name it is created with (a project whose name prints like a missing label aside) |
| `CloudApi.NothingWentWrong` | installer/stackit.go:452-477 | when every call was answered and whatever was awaited came in time, no error ended an operation |
| `CloudApi.Cloud.Poll` | installer/stackit.go:456-474 | a poll ends a wait exactly when its answer is missing, or shows what is awaited as ready, gone or failed |
| `CloudApi.Cloud.GiveUp` | installer/stackit.go:466-472 | a wait gives up only when the last answer shows a failure, or all answers there was time for showed nothing that ends it |
| `SecurityGroups.MissingExactly` | installer/stackit.go:599-624 | the rules that get created are exactly the wanted ones whose description no ingress rule has yet |
| `SecurityGroups.MissingAfter` | installer/stackit.go:599-624 | after more rules were added, what is missing is what those leave missing of the earlier missing rules |
| `SecurityGroups.ConvergedIsFixpoint` | installer/stackit.go:573-624 | a further run on a converged group creates nothing |
| `SecurityGroups.InterruptionIsInvisible` | installer/stackit.go:599-624 | stopping after any number of rules and rerunning gives the rules of one uninterrupted run if and only if the missing rules have distinct descriptions |
| `SecurityGroups.WantedIsThere` | installer/stackit.go:599-624 | after an uninterrupted run every wanted rule is there by its description |
| `SecurityGroups.EnsureRules` | installer/stackit.go:599-624 | the group gains a prefix of the missing rules, all of them on success; no rule is removed and nothing else changes |
| `SecurityGroups.EnsureSecurityGroup` | installer/stackit.go:573-597 | a group found by name is completed in place, otherwise one is created with label, name and all wanted rules; whatever fails, no group and no rule disappears, other groups are unchanged and a new one is labelled; it fails only with a call that failed |
| `HelperAccess.CreateHelperSSHAccess` | installer/helper_transfer.go:28-70 | success grants a fresh labelled keypair and the helper group, open for SSH; whatever fails, a keypair or group left over carries the labels by which it is found again, and a keypair without group is withdrawn |
| `HelperAccess.DeleteDetachedIps` | installer/helper_transfer.go:72-101 | one pass deletes of the listed addresses exactly the labelled ones that are attached to nothing, all of them on success; one is pending exactly if a labelled one is left; nothing else changes |
| `HelperAccess.DeleteKeypairs` | installer/helper_transfer.go:102-115 | exactly the listed labelled keypairs of the hash are deleted, all of them on success; nothing else changes |
| `HelperAccess.DeleteGroups` | installer/helper_transfer.go:116-128 | exactly the listed helper security groups of the hash are deleted, all of them on success; nothing else changes |
| `HelperAccess.DeleteIps` | installer/helper_transfer.go:72-101 | passes are repeated until no labelled address is left; it fails only with a call that failed, or when every listing there was time for showed one still attached |
| `HelperAccess.CleanupStaleHelperAccess` | installer/helper_transfer.go:72-129 | succeeds exactly when no call failed; then no labelled address, keypair or group of the hash is left; nothing else is ever removed |
| `HelperAccess.CleanupHelperSSHAccess` | installer/helper_transfer.go:346-365 | without an error exactly the address, keypair and group of the run are gone; servers, images and volumes are untouched |
| `HelperAccess.AssignHelperPublicIp` | installer/helper_transfer.go:131-172 | success means a fresh labelled address attached to the NIC of the helper in the network, as server and listing show it; without a NIC it fails |
| `NormalizationRun.FindNormalizationVolume` | installer/normalization.go:213-232 | returns a usable volume with the labels and performance class, and none only if there is none |
| `NormalizationRun.VolumeLabels` | installer/normalization.go:213-232 | a volume is found exactly by project, managed-by, purpose, hash and performance class |
| `NormalizationRun.WaitVolume` | installer/normalization.go:170-195 | success means AVAILABLE, or ATTACHED where the caller accepts that; it ends exactly with the first answer that is missing or shows that, a failure or no volume, and without one only when its time is up |
| `NormalizationRun.EnsureVolume` | installer/normalization.go:409-434 | success means a volume with the labels; one is created only if the listing showed no usable one; whatever fails, no import or helper appears and no volume disappears |
| `NormalizationRun.FindNormalizationHelper` | installer/normalization.go:258-273 | returns a helper of the hash, and none only if no helper is live |
| `NormalizationRun.HelperLabels` | installer/normalization.go:234-273 | a helper is found exactly by its labels; one without a hash is only found to be deleted |
| `NormalizationRun.WaitServer` | installer/normalization.go:378-403 | success means ACTIVE; it ends exactly with the first answer that is missing or shows that, a failure or no server, and without one only when its time is up; waiting changes no label |
| `NormalizationRun.RemoveStaleNormalizationHelpers` | installer/normalization.go:234-256 | success leaves no live helper of the hash; servers that are neither helpers of it nor helpers without a hash are untouched |
| `NormalizationRun.HelperStarted` | installer/normalization.go:345-376 | creating a helper when none is live keeps helpers unique in the state after a lost answer as well |
| `NormalizationRun.CreateNormalizationHelper` | installer/normalization.go:345-376 | success means a new labelled helper that is active and the only live one; with no helper live before, none is doubled, also when the call fails |
| `NormalizationRun.TryResume` | installer/normalization.go:436-457 | a run resumes only on an active helper whose agent and readiness probe just answered, and that helper is then the only live one; if it does not, the listing showed no live helper or a failure is recorded as tolerated; only a failing listing is an error |
| `NormalizationRun.PrepareReusableResources` | installer/normalization.go:458-474 | success means that no helper of the hash is live, no labelled access is left, and both volumes were seen AVAILABLE last |
| `NormalizationRun.StartHelper` | installer/normalization.go:475-498 | the new helper is the only live one, its agent answered, a labelled address is attached and the transfer is prepared last; failures on the way double nothing |
| `NormalizationRun.FillSourceVolume` | installer/normalization.go:499-523 | success means that the disk was staged, converted onto the source and prepared, exactly in this order and nothing else |
| `NormalizationRun.WaitImage` | installer/stackit.go:452-477 | success means the image was seen AVAILABLE; it ends exactly with the first answer that is missing or shows that, ERROR or no image, and without one only when its time is up |
| `NormalizationRun.ImageOver` | installer/stackit.go:457-471 | an image is waited for until it is AVAILABLE, gone or in ERROR |
| `NormalizationRun.RequestImport` | installer/normalization.go:540-552 | requests one labelled import in the project under an identifier never used before |
| `NormalizationRun.ExportNormalizedVolume` | installer/normalization.go:540-569 | one import is requested; success means it is AVAILABLE, owned, labelled and agent-enabled; an import that was granted and could not be filled is withdrawn; the single-import invariant is kept if there was no import, and broken if another one outlives it |
| `NormalizationRun.RivalWasThere` | installer/normalization.go:540-569 | an import that is unfinished when the new image is AVAILABLE was a second one when that was requested |
| `NormalizationRun.WaitVolumeDetachedAndDelete` | installer/normalization.go:580-602 | succeeds exactly when no call failed and the volume became AVAILABLE in time, and then it is gone; nothing else is deleted |
| `NormalizationRun.CleanupNormalizationResources` | installer/normalization.go:284-297 | only the two volumes are deleted; without an error they and the access of the run are gone and no helper, address, keypair or group of the hash is left |
| `NormalizationRun.WholeRun` | installer/normalization.go:525-538 | a quiet start, an export and a cleanup only after a finished export together keep the evidence |
| `NormalizationRun.ComposeRun` | installer/normalization.go:445-456 | the same composition for the invariants of all intermediate states, on the fresh and the resume path |
| `NormalizationRun.TwoVolumes` | installer/normalization.go:571-574 | source and scratch volume are never the same, so the scripts are never refused for that |
| `NormalizationRun.RunAfresh` | installer/normalization.go:458-538 | with a fresh helper the image is exported from volumes that were seen free, staged, converted and prepared; it succeeds exactly if no error ends it, and without a warning nothing labelled is left |
| `NormalizationRun.NormalizeAndUploadImage` | installer/normalization.go:405-538 | wherever it stops: helpers stay unique, at most one import is requested and only from a ready source, volumes vanish only after their image was seen AVAILABLE, and everything new is labelled; it succeeds exactly if no error ends it, and every error has a cause the answers show; it resumes unless there was no helper or resuming failed; with success and without a warning nothing is left behind, by label or by name |
| `Images.FindImage` | installer/stackit.go:209-245 | the best candidate: own before shared, finished before unfinished; none only if there is no candidate |
| `Images.ResolveImage` | installer/stackit.go:188-207 | a configured image is returned only if it can be read, is usable and not labelled for another OVA, otherwise the search decides; it fails only for that reason or with an error |
| `Images.UnlabelledImageIsRefused` | installer/stackit.go:197-206 | a configured image is accepted exactly with an empty or matching hash label, never without the label |
| `Images.Search` | installer/stackit.go:247-265 | nothing finished is found only if neither the target's nor the owner's listing showed an AVAILABLE image; an unfinished image found belongs to target or owner, and an unfinished import of the target is found unless something finished; it fails only with an error or for a configured image that cannot be used |
| `Images.StaleWithdrawn` | installer/stackit.go:267-272 | withdrawing the stale import of the owner leaves no unfinished import of the hash |
| `Images.StaleBranchKeepsOneImport` | installer/stackit.go:266-291 | withdrawing a configured import and requesting a new one keeps the single-import invariant if and only if no other import of the hash was unfinished |
| `Images.OwnImportIsAlone` | installer/stackit.go:266-272 | that holds whenever the configured image is itself the labelled import |
| `Images.FindReusable` | installer/stackit.go:247-279 | returns an AVAILABLE image with the labels of the hash, or the owner project has no unfinished import of it; a configured image is returned or gone; a fresh import is never withdrawn, and once stale, only one that is not of the owner project is waited for; while such an import of the target stays unfinished, a search changes nothing and succeeds only with another image that finished by itself |
| `Images.ReuseUnfinished` | installer/stackit.go:266-279 | an unfinished image found is withdrawn exactly if it is stale and of the owner project, else awaited; it is then gone, or AVAILABLE with its labels, or an error was met |
| `Images.WithdrawImport` | installer/stackit.go:267-272 | success means that the import is gone, also if it finished in between |
| `Images.AwaitImport` | installer/stackit.go:273-278 | success means that it was seen AVAILABLE; nothing is changed |
| `Images.AwaitedWhen` | installer/stackit.go:228-234 | without a configured image, an import that is waited for and never withdrawn exists if and only if the owner is not the target and the target has an unfinished import of the hash |
| `Images.EnsureAgent` | installer/stackit.go:298-315 | success means the agent label, and agent support on an own image; the image is updated exactly if it lacks that |
| `Images.EnsureImageShare` | installer/stackit.go:325-370 | success means the share covers the organization, or every configured project and the target; consumers are never removed; the share is updated exactly if it does not cover them |
| `Images.LookForImage` | installer/stackit.go:375-386 | one poll of the next wait: a failing answer is set aside |
| `Images.WaitImageVisible` | installer/stackit.go:372-395 | success means AVAILABLE and visible to the target; a failing answer is polled again, and it fails only when no answer there was time for showed the image |
| `Images.FinishImage` | installer/stackit.go:298-323 | success means AVAILABLE, visible to the target, agent-ready and shared as configured; an update happens exactly if the image was not prepared; it fails exactly with an error or without the agent label |
| `Images.BestIsEligible` | installer/stackit.go:209-245 | whatever a later search picks was eligible before: visible, labelled, finished or unfinished, and own unless there is no own AVAILABLE one |
| `Images.EligibleIsBest` | installer/stackit.go:209-245 | each eligible image is picked in some state to come |
| `Images.PickedIsPrepared` | installer/stackit.go:209-245 | while an AVAILABLE image is visible, every image a search may pick is prepared if and only if every eligible one is |
| `Images.RivalIsShared` | installer/stackit.go:236-244 | of two own AVAILABLE images, the search may prefer one that is not shared to the one made ready before |
| `Images.StartIsJustified` | installer/stackit.go:280-291 | the one start of a run follows both listings without an AVAILABLE image |
| `Images.BuildImage` | installer/stackit.go:280-323 | a build succeeds exactly if no error ends it, with a ready labelled image; in another project its network was ensured before; it keeps the invariants; without a warning no helper and no access is left; a configured image of before is then gone; beside an import that stays unfinished it has broken the single-import invariant |
| `Images.ReuseImage` | installer/stackit.go:292-323 | the image found is made ready; if that changed nothing, it was prepared before; it fails only with an error or for a configured image that does not suit |
| `Images.EnsureImage` | installer/stackit.go:247-323 | success means a ready image with the labels of the hash; every state in between keeps the invariants, with a configured image if no other import of the hash was unfinished; a run fails only with an error that ends it and has a cause the answers show, or for a configured image that is gone, unreadable, of another OVA or not normalized; with an awaited import that stays unfinished it fails and changes nothing; a run that finds only prepared images changes nothing, and one that changes nothing has reused a prepared image |
| `Images.RunTwice` | installer/stackit.go:247-323 | an immediate second run after a successful one changes nothing: with a search if every image it may pick is prepared, and with a configured image always; an answered one returns the configured image, and it always fails if the first one rebuilt that; with a single image a search returns the same |
| `Images.RunWithoutImage` | installer/stackit.go:189-195 | once a configured image is gone, every run that names it fails and changes nothing |
| `Images.RunBesideImport` | installer/stackit.go:228-279 | over any number of runs: while an unfinished import that is not of the owner project stays unfinished, and nothing finished can be seen, each fails and changes nothing |
| `Images.StoppedRunBlocks` | installer/normalization.go:540-552 | that is the state after an import request without owner project, for runs that name one |
| `Images.RecoverAfterRuns` | installer/stackit.go:247-323 | after any number of interrupted runs, a run provides a ready image exactly if no error ends it, for a configured image that suits; so it does whenever every call is answered and whatever it waits for comes in time; tolerated failures and leftover helpers are no errors; a build without a warning leaves no helper and no access |
| `Images.ConfiguredImageCanDouble` | installer/stackit.go:188-207 | a configured stale import without normalization label beside another import is such an unsafe state |
| `Images.OneMoreRun` | installer/stackit.go:247-323 | the promises about volumes and uploads hold over any number of runs if they hold for each |
| `Images.MoreUploads` | installer/stackit.go:247-323 | over more runs, an image is still filled only from a source made ready before |
| `Images.MoreEvidence` | installer/stackit.go:247-323 | and a volume is still deleted only after its image was seen AVAILABLE |
| `Images.RunRepeatedly` | installer/stackit.go:247-323 | over any sequence of interrupted runs, in every state, helpers are unique, imports are unique if each run with a configured image started safely, no volume vanishes without its image, and everything new is labelled |
| `Upload.Staging.Inspect` | installer/helper_transfer.go:270-287 | COMPLETE only for a final file of the expected size, otherwise the size of the partial file |
| `Upload.Staging.Transfer` | installer/helper_transfer.go:315-321 | some first part of the data, or nothing at all, reaches the partial file |
| `Upload.Staging.VerifyAndRename` | installer/helper_transfer.go:324-333 | the partial file becomes the final one only with the right size; the answer may be lost |
| `Upload.Staging.Import` | installer/normalization.go:66-84 | success consumes the staged disk; breaking off leaves it or not |
| `Upload.Staging.Export` | installer/normalization.go:86-110 | an earlier export is removed first; at most the largest export is added, and success leaves none |
| `Upload.ResumeOffset` | installer/helper_transfer.go:276-293 | the transfer resumes at the size of the partial file; that is removed only for an unreadable or too large size |
| `Upload.NeverTooLong` | installer/helper_transfer.go:270-293 | with the right size, only an unreadable status makes an attempt start over, or send anything beside the staged disk |
| `Upload.SendBytes` | installer/helper_transfer.go:300-321 | the partial file grows to a longer prefix of the disk, by exactly the bytes written |
| `Upload.SendRest` | installer/helper_transfer.go:308-338 | sending from the size of the partial file extends a prefix of the disk, and staged means the whole disk |
| `Upload.Attempt` | installer/helper_transfer.go:260-338 | one attempt keeps prefix and whole-disk invariants; with readable status and right size it loses no byte and writes exactly the bytes gained; without faults it stages the disk; it is worth another one exactly after a transfer that broke off |
| `Upload.UploadOVAToHelper` | installer/helper_transfer.go:258-344 | success means the helper holds exactly the disk; after a broken transfer comes another attempt, and it gives up only after the last one or at a command outside the transfer that failed; bytes appended are the bytes that were missing; without faults one transfer suffices |
| `Upload.AppendedPrefix` | installer/helper_transfer.go:300-320 | appending the next bytes to a prefix of the disk gives a prefix |
| `Upload.StageRepeatedly` | installer/normalization.go:499-525 | over any sequence of uploads, imports and exports the invariants need no repair, and the volume never holds more than the disk and an export, or twice the disk after an unreadable status |
| `Scratch.AcceptsExactlyEnough` | installer/command.go:206-213 | in 64-bit arithmetic, the check accepts exactly the sizes that hold virtual disk, VMDK and 2 GiB, if and only if no sum overflows |
| `Scratch.TooSmall` | installer/command.go:206-213 | after an overflow the computed minimum is smaller than what is needed |
| `Scratch.RunsFit` | installer/normalization.go:499-525 | with an accepted size everything fits in every state of every interrupted sequence, if no status answer is unreadable or the volume holds the disk twice |
| `Scratch.UnreadableStatusDoubles` | installer/helper_transfer.go:282-293 | after an unreadable status beside a staged disk and a stale export, all fits if and only if the volume holds the disk twice |
| `Scratch.SmallestHoldsOnce` | installer/command.go:206-213 | from 1 GiB on, the smallest accepted size does not |
| `OutputWindow.LastIndex` | installer/stackit.go:139-151 | the last occurrence, or none if there is none |
| `OutputWindow.CommandOutputDelta` | installer/stackit.go:130-158 | the delta continues the longest prefix, or the overlap the search prefers; a reset if and only if no overlap is findable; the search terminates |
| `OutputWindow.ShortOverlapIsFindable` | installer/stackit.go:141-157 | every overlap of at most 64 bytes is found |
| `OutputWindow.IsolatedIsVisited` | installer/stackit.go:139-151 | the backward search visits every probe occurrence if occurrences do not overlap |
| `OutputWindow.VisitedApart` | installer/stackit.go:141-151 | visited occurrences never overlap |
| `OutputWindow.AllVisitedIffIsolated` | installer/stackit.go:139-151 | the backward search visits every occurrence of the probe if and only if no two of them overlap |
| `OutputWindow.OverlapIsFindable` | installer/stackit.go:130-158 | a reset then means that no overlap of any length exists |
| `OutputWindow.SelfOverlappingProbeIsMissed` | installer/stackit.go:150 | for a self-overlapping probe a 66-byte overlap is missed |
| `OutputWindow.TrueOverlap` | installer/stackit.go:130-158 | when a window rolls smoothly, the true overlap is the only one visited |
| `OutputWindow.ContinuesStream` | installer/stackit.go:130-158 | in a smooth step the delta is exactly the part of the stream not printed yet |
| `OutputWindow.StillEndsWith` | installer/stackit.go:96-105 | printing what follows an overlap makes the text end with the current output |
| `OutputWindow.Show` | installer/stackit.go:95-105 | after a poll the text ends with the current output, whether it grew, rolled, emptied or was reset |
| `OutputWindow.WaitRunCommand` | installer/stackit.go:75-128 | success exactly for a finished command with exit code 0; polling goes on until an answer decides, an error is permanent or the deadline passes; printed text ends with the latest output; smooth windows reproduce the stream without a reset |
| `Bootstrap.Appliance.WritePasswordFile` | installer/bootstrap.go:35 | a cut-off write leaves the old, the new or an empty file |
| `Bootstrap.Appliance.WriteMarker` | installer/bootstrap.go:176 | a cut-off write leaves the old, the new or an empty marker |
| `Bootstrap.Appliance.Login` | installer/bootstrap.go:73-91 | succeeds with the password Keystone has, and without faults exactly if that is OpenRC's or the new one |
| `Bootstrap.Appliance.Verify` | installer/bootstrap.go:155-171 | success means OpenRC and Keystone hold the password |
| `Bootstrap.Appliance.Apply` | installer/bootstrap.go:67-177 | wherever it stops, Keystone has OpenRC's or the new password; success means that all four places and the marker agree; places that agree stay as they are, and a converged state is unchanged if and only if no marker write was cut off |
| `Bootstrap.Appliance.RunScript` | installer/bootstrap.go:27-180 | a configured or stored password is kept; success means convergence; a converged state is unchanged if and only if no write of password file or marker was cut off; a resumable state stays so if and only if no file write was cut off, or the password is configured, or OpenRC opened Keystone at the start; without faults it succeeds exactly if a login is possible |
| `Bootstrap.Appliance.RunCommand` | installer/bootstrap.go:198-206 | without faults and with its result arriving, the command is answered exactly if a login is possible; an answer means convergence |
| `Bootstrap.BootstrapAppliance` | installer/bootstrap.go:184-233 | it succeeds exactly with the first answer and returns the password that all four places hold; it gives up only after a failure that is not transient or three attempts; from a resumable state, without faults and with the result arriving, the first attempt succeeds; attempts keep the appliance resumable, always with a configured password; places that agree stay as they are unless a write of the password file is cut off |
| `Bootstrap.BootstrapRepeatedly` | installer/bootstrap.go:184-233 | after any number of stopped runs an undisturbed one returns the password and converges: always with a configured password, otherwise if no file write was cut off while Keystone and OpenRC differed |
| `Bootstrap.ResumableConverges` | installer/bootstrap.go:27-34 | in a resumable state whatever password the next run chooses gives access |
| `Bootstrap.CutOffWriteIsHarmless` | installer/bootstrap.go:27-35 | in a resumable state a cut-off write is harmless if and only if the password is configured or OpenRC opens Keystone |
| `Bootstrap.CutOffWriteLosesAccess` | installer/bootstrap.go:27-35 | after a harmful one, exactly the password that was lost gives access |
| `Bootstrap.CutOffWriteCanHarm` | installer/bootstrap.go:32-35 | such a state comes from a first run that stopped after changing Keystone |
| `Certificate.RestoredIsOriginal` | installer/certificate_direct.go:244-292 | after restoring, each path has its original content or absence, even if paths coincide, and other paths are untouched |
| `Certificate.RestoringTwice` | installer/certificate_direct.go:271-303 | a restore block that runs again on its own result changes nothing |
| `Certificate.Appliance.BackUp` | installer/certificate_direct.go:244-256 | success means that each active path has a copy or an absence marker |
| `Certificate.Appliance.Restore` | installer/certificate_direct.go:284-292 | the loop restores each path that has a backup, in order |
| `Certificate.Appliance.Rollback` | installer/certificate_direct.go:284-292 | whatever the files have become, the restore block brings every active path back and touches no other |
| `Certificate.Appliance.InstallFiles` | installer/certificate_direct.go:305-317 | success means each of the seven files holds what was last written to it |
| `Certificate.Appliance.WriteAll` | installer/certificate_direct.go:305-347 | success means the files were delivered, and then exactly the vendor commands ran with success; it fails exactly with a command that failed |
| `Certificate.Appliance.Apply` | installer/certificate_direct.go:202-353 | a failure before the trap touches no file; a failure after it leaves every active path as it was by the end of the last restore block, however many shells roll back; success is exactly the case without a failing command, and means the files were delivered and then all vendor commands succeeded |
| `Certificate.FailureSummary` | installer/certificate_direct.go:381-396 | the longest plain stretch of at most 480 characters from the first marker, without spaces at the end |
| `Certificate.SummaryIsUnique` | installer/certificate_direct.go:381-396 | an output has one such summary |
| `Certificate.ReportIsRecovered` | installer/certificate_direct.go:207-210 | a report line of up to 480 plain characters is recovered exactly |
| `Progress.RemoveActivity` | installer/progress.go:122-130 | the loop removes the last occurrence of the activity |
| `Progress.ReplayedLines` | installer/progress.go:58-130 | lines that nest as brackets give every activity START, then INFO or WAIT, then DONE or FAIL |
| `Progress.LiveBeatIsOpen` | installer/progress.go:68-94 | a heartbeat that can still write belongs to an activity that has started and not finished |
| `Progress.InvKept` | installer/progress.go:58-130 | every step of the main goroutine and of every heartbeat keeps the invariant |
| `Progress.LinesOverAllRuns` | installer/progress.go:31-43 | in every interleaving the lines of every activity follow the protocol, and the call stack tells how far it is |
| `Progress.FinishedStays` | installer/progress.go:109-131 | nothing follows the DONE or FAIL of an activity |
| `Progress.LastLineTellsOutcome` | installer/progress.go:117-121 | whatever happens later, the last line of an activity is FAIL exactly if its action failed, and DONE otherwise |
| `Progress.NothingLeftBehind` | installer/progress.go:31-43 | when the outermost action has returned, all activities are finished, none is registered, no heartbeat lives |
| `Progress.StackRestored` | installer/progress.go:58-130 | the activity stack after finish equals the stack before start |
| `Progress.FinishNeverDeadlocks` | installer/progress.go:114-116 | from every reachable state in which finish waits, at most two heartbeat steps let it go on |
| `Progress.OthersLeaveTheHeartbeatAlone` | installer/progress.go:68-94 | no other heartbeat changes that |
| `Progress.OuterSteps` | installer/progress.go:68-94 | while another activity stays above it, the WAIT lines of an activity and its pending check together never grow |
| `Progress.OuterWaitIsPending` | installer/progress.go:80-94 | in every reachable state, an activity below another can write WAIT if and only if its heartbeat has checked and not written yet, and it writes it once at most |
| `Progress.OuterWaitAfterBegin` | installer/progress.go:58-65 | the same for every activity on the stack when an inner one begins, until that has finished |
| `Progress.OuterWaitAfterInnerStart` | installer/progress.go:80-94 | an interleaving in which that happens: the outer WAIT follows the inner START |
| `Enablement.WaitDisabling` | installer/service_enablement.go:50-58 | a service being disabled is waited for; no failure is tolerated |
| `Enablement.StartActivation` | installer/service_enablement.go:60-75 | the enable call is made exactly for a disabled service; a refused one is accepted if the service is active anyway |
| `Enablement.WaitActivation` | installer/service_enablement.go:76-93 | only here are transient failures tolerated; success exactly if the last answer was ENABLED |
| `Enablement.EnsureRunCommandService` | installer/service_enablement.go:41-95 | success exactly if the last answer was ENABLED; every exchange before was justified and none could follow; a first answer that the service is disabled or unknown to the project is followed by the enable call, one that it changes by a wait, and ENABLED or a failure by nothing |
| `Enablement.EnabledAtMostOnce` | installer/service_enablement.go:60-73 | in justified exchanges the enable call is made at most once |
| `Enablement.NoReason` | installer/service_enablement.go:60-92 | a refused enable call, a wrong state or a failure that is not tolerated ends the exchange |
| `PublicAddress.AttachedAgrees` | installer/stackit.go:771-779 | attaching a free address to a NIC without one keeps server and address tables in agreement |
| `Nics.FindOwnNic` | installer/stackit.go:731-740 | the NIC of the first entry of the server in the network, or none exactly if no entry is in it |
| `Nics.FindDeviceNic` | installer/stackit.go:746-751 | the first NIC of the network that belongs to the server, or none exactly if there is none |
| `Nics.NicIsUnique` | installer/stackit.go:731-752 | server resource and listing together name one NIC at most |
| `PublicAddress.LocateNic` | installer/stackit.go:726-755 | finds the NIC, and an address only where the server shows one; nothing found means an error or no NIC |
| `PublicAddress.Assign` | installer/stackit.go:765-808 | at most one attachment, to this NIC, of a free address that meets the request, or else of one labelled as the installer's; a new one, with that label, only if no such free one exists; it fails only with an error or when the request cannot be met |
| `PublicAddress.EnsurePublicIP` | installer/stackit.go:726-808 | no address is taken from a NIC, and only one that is requested or labelled as the installer's is taken at all; the address returned is attached to the server's NIC; a server with an address keeps it; it fails only with an error, without NIC, or when the request cannot be met |
| `PublicAddress.RightfullyTakenTrans` | installer/stackit.go:765-808 | over two runs, too, only requested addresses and the installer's own are taken |
| `PublicAddress.RunRepeatedly` | installer/stackit.go:726-808 | any number of runs attach at most one address in total, only one that may be taken, and all that are answered return the same; without a request, every run without an error is answered |
| `Ova.FirstPass` | installer/ova.go:56-78 | all descriptors decode and are merged, or an error; only a member without a name sets the size |
| `Ova.ParsedDecimal` | installer/ova.go:88-99 | a capacity or quantity written in decimal is read back, clamped to 64 bits |
| `Ova.InspectOVA` | installer/ova.go:45-135 | both passes together find digest, names, firmware, hardware, capacity, disk and size as the reference definition `Inspected` says, or its errors |
| `Ova.AcceptedExactly` | installer/ova.go:56-134 | an archive is accepted if and only if it can be read, has one disk, a file named for it and a size |
| `Ova.HardwareIsFound` | installer/ova.go:87-95 | vCPUs and memory are the quantities of the last items of type 3 and of type 4 in the archive, or 0 |
| `Ova.TextsAreFound` | installer/ova.go:79-86 | digest, and descriptor, name, system and firmware by the last entry in the archive |
| `Ova.DiskIsFound` | installer/ova.go:96-105 | capacity of the one disk, and the name in the last file entry with its reference |
| `Ova.DecimalIsReadBack` | installer/ova.go:87-99 | capacity, vCPUs and memory written in decimal are read back |
| `Ova.FindMember` | installer/ova.go:114-127 | the first member of that name |
| `Ova.OpenDisk` | installer/ova.go:144-165 | streams the first member with the name of the disk |
| `Ova.SizeIsStreamed` | installer/ova.go:75-77 | the size found is the size streamed if and only if the last nameless member is empty or as large as the disk |
| `Ova.NamedArchive` | installer/ova.go:45-135 | in an archive whose members have names, an accepted disk exists and has the size found |
| `Ova.ScratchHoldsStreamedDisk` | installer/command.go:206-213 | the scratch size accepted for such an archive holds the disk that will be streamed |
| `Ova.UnnamedMemberMisleads` | installer/ova.go:75-77 | a nameless member of 5 bytes hides a disk of 9 |

## Left out

- Concurrent installers, a `cat` process left over on the helper, and resources changed by others: all protocols assume one sequential writer.
- The bytes of volumes and images. The readiness probe is an oracle: it does not imply that the clean-up lines of the normalize script (installer/normalization.go:50-61) were executed.
- Images.RunRepeatedly: for runs with a configured image.id the single-import invariant needs the condition named there; `Images.EnsureImage` and `Images.ConfiguredImageCanDouble` show that it fails otherwise.
- Images.EnsureImage: that listings precede a normalization is claimed only without a configured image.id, because with one no listing is consulted.
- Images.EnsureImageShare: projects are a set, so the order and the duplicates that uniqueStrings removes (installer/stackit.go:397-409) are not modelled.
- Images.RecoverAfterRuns: a deadline that ends an operation counts as an error; that the cloud settles before its deadlines is not claimed.
- Bootstrap.BootstrapRepeatedly: with a generated password it does not claim convergence after a file write that was cut off while Keystone and OpenRC differed; `Bootstrap.CutOffWriteLosesAccess` shows why.
- Certificate.Appliance.Apply: promises nothing about files outside the nine paths (metal hub certificates), about what vendor commands do after the restore block, or about a script that is killed instead of failing: then no trap runs, and the next run backs up what it finds.
- Upload.UploadOVAToHelper: the byte count and the number of transfers are claimed when the inspected size is the size streamed and no status answer is unreadable; the prefix invariant needs neither.
- Scratch.RunsFit: assumes that an export takes at most the virtual disk and 2 GiB; the sizes of QCOW2 files and of filesystem metadata are not modelled.
- Finding or creating the server itself, with its image label check (installer/stackit.go:626-715): a named server in state CREATING is returned before that check.
- SDK clients, HTTP, token refresh, SSH handshakes, ACME and X.509 checks: each is a step that succeeds or fails.
- The texts of the embedded scripts: only their effects on files, passwords and volumes are modelled.
- installer/config.go, installer/alb.go, installer/acme.go, installer/dns.go, installer/extensions.go and flags: validation and payloads, which would add only easy members.
- Elapsed times, percentages, rates and the wording of messages.
