# A verified model of the FOKS client's key management

FOKS clients provision devices, rotate per-user keys (PUKs) and per-team keys (PTKs),
load signed chains against a Merkle tree, explore the graph of teams they belong to and
keep device keys reachable through a passphrase. This project models those protocols in
Dafny 4.11 and proves what they promise. `dafny verify dfyconfig.toml` checks everything.

Cryptography is symbolic: a box is a term that opens only under its key, a hash and a
commitment determine what they were made from, a signature names its signer, and random
seeds are drawn fresh. Clocks, randomness, the network and the scheduler are parameters,
so each theorem holds for all of them. What the server may answer is said with each
component: a loader is given anything at all and accepts what checks out, the mailbox of
the key exchange may answer a receive with any message it stores for the session, and the
histories of teams and users are those of a server that keeps its tables.

What is proved, component by component:

* **Team keys** (`roles`, `seed_chain`, `derivation`, `keyring`, `gameplan`, `team_edit`,
  `team_history`, `team_access`, `team_stranding`). From the membership planner through the
  editor's boxes and the server's tables to the loader that opens them, over every run of
  accepted edits: after each edit
  exactly the entitled members have a box of the newest key, the keys a member can derive
  from what the server stores include the newest one exactly if the member is entitled, and
  a member named in an edit opens every generation from 1 on. That *every* member can load
  its roles at *every* later time is false of the code: a box is opened against the sender's
  current key, so an edit that removes the sender, or moves it to another key, without
  rotating the role leaves the box behind. `RunLoadsIffNoneStrands` says that exactly such
  edits break it. `PromotionWithNewKeyStrandsAMember` and `StepDownStrandsTheOwner` are runs
  of ordinary edits that do.
* **Per-user keys** (`puk`, `puk_history`, `puk_holders`). Revocation raises the right roles
  by one generation and distributes them to the right devices; every active device recovers
  the whole history of each role it was given after any number of rotations; a revoked
  device can derive no later key. Rotating or revoking takes the keys of every role, and a
  new device is boxed the key of its own role only. `HoldsIff` says which active devices
  can load which role, `StepSticksIff` exactly which step leaves a user without a device
  that is able to rotate, and `StuckForGood` that no key is rotated and no device revoked
  ever after. `SelfRevocationSticks` is a run from signup that ends there.
* **Device provisioning** (`kex`, `kex_alignment`, `kex_runs`, `kex_secret`). A step relation
  over both devices, two candidate sessions, a mailbox, the secret store and the server, with
  lost sends, crashes, a mailbox that answers a receive with any stored message of the
  session, and a user who types anything anywhere. Crash safety, channel agreement, message-number
  alignment with the exact condition that breaks it, one error report per side.
* **Chain loading** (`merkle`, `chain_load`, `generic_chain`). One root admits one answer for
  each key, and therefore one chain; any number of incremental loads equals one full load.
* **Exploration** (`explore`). The bounded worker pool over a cyclic graph: closure,
  dependency order, progress and a true picture of what the server said.
* **Passphrases** (`passphrase`). The append-only list of wrapping keys, for managers that
  race each other.
* **Index ranges** (`rational`, `index_range`). The comparison of the client's rationals is
  the order of the numbers, and ranges that only shrink keep the team graph acyclic. The
  client does not check that a range's low end is below its high end; by its checks alone a
  cycle is admitted exactly if some range is upside down (`CycleAdmittedIffUpsideDown`). The
  server does check it, and with that no run makes a cycle (`ServersKeepGraphAcyclic`).
* **Party cache, view tokens, secret store** (`party_cache`, `view_token`, `secret_store`).
  No reachable state is deadlocked; the generation search is complete and challenges no
  generation twice; what the rows on disk have to do with the rows in memory.

Where code and comments disagree, the model follows the code. In particular: the openers of
seed chains check the generation outside each box and not the one inside
(`InnerGenIsNotChecked`, `UnboxRepeatsAGeneration`); a failed save inside `UpdateAndSave`
marks the store as saved, which is wrong exactly if something was unsaved before
(`FailedUpdateForgetsNewRow`); `RotateWithPUK` leaves the manager one key behind the row it made; a forced rotation is
refused by the server unless every role it boxes rotates (`RotationIsTakenIff`,
`MemberRotationIsRefused`); clearing
two provisional rows of one role leaves two settled ones
(`ClearingTwoRowsBreaksRolesUnique`); a chain loader that is used twice keeps the hashes of
the first attempt (`ReusedLoaderAcceptsIff`, `KeptHashRefusesGoodLoad`); a receive compares
the number inside a message with the one the server names, never with the one asked for.

## Model

| member | source | states |
|---|---|---|
| `SeedChains.UnwindSeedChain` | client/libclient/puk_minder.go:306-329 | the downward loop opens link after link under the key above and returns the keys oldest first, or the first error |
| `SeedChains.UnwindUndoesSealing` | client/libclient/rotate_mgr.go:414-472 | after any number of rotations, unwinding the links that sealing made, from the newest key, gives back exactly the older keys in order |
| `SeedChains.UnwindShape` | client/libclient/puk_minder.go:306-329 | a successful unwinding has one key for each link, and the outside generations count down by one |
| `SeedChains.ContiguousIffInnerGensMatch` | client/libclient/team_keyring.go:470-500 | for any chain at all, an accepted unwinding is contiguous exactly if each generation inside a box equals the one outside |
| `SeedChains.InnerGenIsNotChecked` | client/libclient/puk_minder.go:309-326 | an accepted chain that yields generation 1 twice and hides generation 2 |
| `SeedChains.RotateOk` | client/libclient/rotate_mgr.go:433-469 | a rotation keeps history and chain in step |
| `Keyring.MergeIsContiguousUnion` | client/libclient/team_keyring.go:424-446 | on contiguous inputs, merge is the contiguous union, and is empty exactly for a gap or two empty inputs |
| `Keyring.MergeKeepsPrefix` | client/libclient/team_keyring.go:424-446 | keys held from generation 1 stay in front of whatever is merged in |
| `Keyring.MergeHeld` | client/libclient/team_keyring.go:424-446 | a stretch that meets the keys held completes them |
| `Keyring.PtkUnboxIsPublished` | client/libclient/team_keyring.go:454-500 | whatever a parcel opens to, each key is the one published at its own generation |
| `Keyring.UnboxDHOpensIff` | client/libclient/team_keyring.go:502-576 | a box opens exactly if the receiver has the key and the sender is current in the roster or known from before |
| `Keyring.HonestParcelOpens` | client/libclient/team_keyring.go:454-576 | a parcel made by the sealing code opens, under that same condition, to exactly its stretch of the history |
| `Keyring.OpenParcel` | client/libclient/team_keyring.go:634-645 | one parcel opened and merged onto what is on the right; the sender is remembered whether or not the box opens |
| `Keyring.WalkParcels` | client/libclient/team_keyring.go:614-654 | the newest-first loop computes `UnboxAll` and leaves the sender history of exactly the parcels it tried |
| `Keyring.WalkCompletes` | client/libclient/team_keyring.go:634-652 | a walk that succeeds ends by merging the keys held with one stretch, of which holds whatever opening a parcel keeps true |
| `Keyring.UnboxedIsPublished` | client/libclient/team_keyring.go:578-654 | for any parcels, a success starts at generation 1, has the keys held as a prefix, and every key is the published one |
| `Keyring.UnboxedIsContiguous` | client/libclient/team_keyring.go:614-654 | for any parcels whose seed chains label their boxes truly, from contiguous keys, a success is contiguous |
| `Keyring.UnboxedIsInOrder` | client/libclient/team_keyring.go:614-654 | with such chains every generation g unboxed sits at index g - 1 and is the key published there |
| `Keyring.FreshUnboxIsInOrderIff` | client/libclient/team_keyring.go:614-654 | for a loader that starts from nothing with one parcel, that holds exactly if the chain labels its boxes truly |
| `Keyring.NewestIsInOrderIff` | client/libclient/team_keyring.go:614-654 | for keys held in order, whenever the newest parcel alone reaches them, the result is in order exactly if the parcel adds nothing or labels its first link and the links of generations not yet held truly |
| `Keyring.OneParcelIsInOrderIff` | client/libclient/team_keyring.go:614-654 | the same for every success with one parcel, whatever is held |
| `Keyring.MergeCountsUpIff` | client/libclient/team_keyring.go:424-446 | keys 1 to h merged with any stretch that completes them count up from 1 exactly if the stretch ends by h or counts up wherever it goes beyond |
| `Keyring.UnboxRepeatsAGeneration` | client/libclient/team_keyring.go:479-497 | a parcel that unboxes without error against three published keys into generations 1, 1 and 3 |
| `Keyring.UnboxRecoversHistory` | client/libclient/team_keyring.go:614-654 | honest parcels fetched one after the other, each reaching back to the one before, give back the whole history |
| `Keyring.TeamKeysForRole.constructor` | client/libclient/team_keyring.go:243-250 | a role starts with no keys |
| `Keyring.TeamKeysForRole.AddPub` | client/libclient/team_keyring.go:293-335 | takes a public key exactly if its generation is the next one |
| `Keyring.TeamKeysForRole.AddPrivBoxed` | client/libclient/team_keyring.go:337-355 | takes a parcel exactly if the role has public keys |
| `Keyring.TeamKeysForRole.Unbox` | client/libclient/team_keyring.go:614-654 | success leaves published keys from generation 1 on after the old ones, in order if the chains label their boxes truly and, with one parcel, exactly if it adds nothing or its first link and its links of new generations are labelled truly; failure leaves the keys as they were |
| `Keyring.TeamKeysForRole.At` | client/libclient/team_keyring.go:61-73 | a lookup by index finds a key exactly for 1 to the number held; if the keys are in order it is the published key of that generation |
| `Gameplans.ApplyIsOverwrite` | lib/team/core.go:469-490 | with no member named twice, applying changes one by one is a simultaneous overwrite |
| `Gameplans.RosterOkAfter` | lib/team/core.go:519-572 | a planned edit leaves a roster of valid roles with an owner |
| `Gameplans.RekeyedReads` | lib/team/core.go:229-332 | nobody is scheduled a key that it may not read afterwards |
| `Gameplans.NewKeyReachesReaders` | lib/team/core.go:229-332 | a new generation is scheduled for everybody who may read the role afterwards |
| `Gameplans.NewcomerIsBoxed` | lib/team/core.go:229-332 | whoever gains a role is scheduled its key, rotated or not |
| `Gameplans.FloodRotates` | lib/team/core.go:229-332 | a role that a removal or demotion touches does get a new generation |
| `Gameplans.LossRotates` | lib/team/core.go:229-332 | somebody losing a role forces a new generation of it |
| `Gameplans.Coverage` | lib/team/core.go:229-332 | after an edit a member may read a role exactly if it was scheduled the key, or could read it before and the key did not change |
| `Gameplans.ScheduleExists` | lib/team/core.go:164-227 | every plan has a schedule: roles ascending, each scheduled member once |
| `TeamEdit.TeamEditor.constructor` | client/libclient/team_minder_edit.go:87-95 | an editor starts with nothing made |
| `TeamEdit.TeamEditor.FindSelfChangeGen` | client/libclient/team_minder_edit.go:125-153 | the generation the edit moves its own author to, and an error if the author is removed or named twice |
| `TeamEdit.SelfChangeErrStays` | client/libclient/team_minder_edit.go:125-153 | an error found part of the way is the error of the whole |
| `TeamEdit.TeamEditor.SetPrivateKeys` | client/libclient/team_minder_edit.go:164-221 | signs with the key the chain knows, encrypts with the newer of that and the one moved to; succeeds exactly if the author is a member that holds both |
| `TeamEdit.TeamEditor.RunBoxes` | client/libclient/team_minder_edit.go:291-417 | makes the scheduled keys, boxes and links, exactly if every key and member it needs is there; otherwise nothing |
| `TeamHistory.EditorMakesTheNewBoxes` | client/libclient/team_minder_edit.go:291-417 | on any schedule for an accepted edit, an editor holding the newest key of every role it reads has every key it needs, and the boxes it makes are exactly the ones the edit adds |
| `TeamHistory.EditorMakesTheNewLinks` | client/libclient/team_minder_edit.go:350-362 | the chain links it makes are exactly those the rotated roles gain |
| `TeamHistory.ScheduledRoleIsReadable` | lib/team/core.go:346-437 | the author of an accepted edit may read every role it schedules |
| `TeamHistory.BoxedExactlyAfter` | server/shared/team.go:287-345 | after an edit the newest boxes belong to exactly the members entitled to them |
| `TeamHistory.SeedsDistinctAfter` | client/libclient/team_minder_edit.go:319-336 | no two generations of any roles share a seed |
| `TeamHistory.EditKeepsInv` | client/libclient/team_minder_edit.go:1018-1096 | every accepted edit keeps the whole team invariant |
| `TeamHistory.RunKeepsInv` | client/libclient/team_minder_edit.go:1018-1096 | the invariant holds after every edit of every run |
| `TeamAccess.NewestParcelOpensIff` | client/libclient/team_keyring.go:614-654 | a parcel reaching from the keys held to the newest one completes the history exactly if its box can be opened, whatever parcels came before |
| `TeamAccess.LoaderOpensIff` | client/libclient/team_loader.go:2382-2411 | a loader holding any prefix recovers the whole history from the server's parcel exactly if the sender's key is current or remembered |
| `TeamAccess.FreshLoaderOpensIff` | client/libclient/team_loader.go:2382-2411 | the same for a loader that starts from nothing |
| `TeamAccess.EditorKeyIsCurrent` | client/libclient/team_minder_edit.go:164-221 | the key an editor boxes with is the one the roster advertises after the edit, also when the edit moves the editor to a new key |
| `TeamAccess.ScheduledMemberOpens` | client/libclient/team_minder_edit.go:291-417 | in every run, a member named in the latest schedule opens every generation from 1 on |
| `TeamAccess.OpenableIffEverybodyLoads` | client/libclient/team_loader.go:2382-2411 | every entitled member loads the whole history of every role exactly if the sender of every newest box is still known by the key it sent with |
| `TeamAccess.OpenableIffNotStranded` | lib/team/core.go:229-332 | an accepted edit of a team whose boxes all open leaves them all openable exactly if it does not remove, or move to another key, the sender of a newest box whose role it does not rotate |
| `TeamAccess.StrandedBox` | lib/team/hilev.go:361-400 | such a box stays the newest, its member stays entitled, and cannot load the role |
| `TeamAccess.RunLoadsIffNoneStrands` | client/libclient/team_minder_edit.go:1018-1096 | all along a run everybody loads everything exactly if no edit so far stranded a box |
| `TeamAccess.EditorLoadsItsRing` | client/libclient/team_minder_edit.go:313-317 | while everybody loads, the keys an edit works with are what its author loads |
| `TeamAccess.KeptBoxStaysSent` | lib/team/hilev.go:361-400 | a box of an unrotated role, sent by a reader of the role, keeps a current sender exactly if no change promotes that sender onto a new key |
| `TeamAccess.WellSentStrandsIff` | lib/team/core.go:299-318 | where every sender can read what it sent, promoting the sender onto a new key is the only way to strand a box |
| `TeamAccess.DisciplinedRunStrandsNobody` | client/libclient/team_minder_edit.go:164-221 | runs without such promotions, and without authors demoting themselves, never strand a box |
| `TeamAccess.DisciplinedEditKeepsWellSent` | client/libclient/team_minder_edit.go:164-221 | edits without such a promotion, and without an author demoting itself, keep every sender current and able to read what it sent |
| `TeamAccess.DisciplinedRunIsWellSent` | client/libclient/team_minder_edit.go:164-221 | so do whole runs of them |
| `TeamAccess.EveryMemberOpensEverything` | client/libclient/team_loader.go:2382-2411 | after any run in which no edit stranded a box, every entitled member recovers the whole history of every role it reads, from any prefix and any sender history |
| `TeamStranding.PromotionWithNewKeyStrandsAMember` | lib/team/core.go:299-318 | a run of three accepted edits: everybody loads after the second; the third promotes a sender onto a new key, and a member still entitled cannot load |
| `TeamStranding.StepDownStrandsTheOwner` | lib/team/core.go:425-437 | a run of three accepted edits in which nobody is promoted: an admin steps down, everybody loads, the former admin is moved to a new key, and the owner cannot load the admins' role |
| `TeamAccess.CurrentKeyDerivableIffEntitled` | server/shared/team_loader.go:256-425 | in every reachable state, a member can derive the newest key of a role from the server's boxes and links exactly if it may read the role |
| `TeamAccess.DerivableIffGiven` | server/shared/team_loader.go:256-425 | a member can derive exactly the team's keys at or below a generation it was ever boxed |
| `Derivation.LinkOpensOneDown` | client/libclient/team_minder_edit.go:350-362 | a key opens one link only among those of all roles, the one that seals its predecessor |
| `Derivation.DerivableIff` | client/libclient/team_keyring.go:479-497 | from boxed keys and all chain links together, exactly the keys at or below a boxed one of the same role can be worked out |
| `Kex.StepKeepsInv` | client/libclient/kex.go:747-805 | every step of either side, of the network, of the user and of the server keeps the invariant, where a receive may be answered with any stored message of the session |
| `Kex.RunKeepsInv` | client/libclient/kex.go:1030-1104 | so does every run |
| `Kex.AcceptedLinkHasRow` | client/libclient/kex.go:653-718 | crash safety: whenever the server has the new device's link, the device has saved a row for its key with user, host and role of that link, and the link is doubly signed |
| `Kex.AcceptedLinkHasRowWithToken` | client/libclient/kex.go:1001-1028 | the row also has the token that the provisioner posts |
| `Kex.ChannelsAgree` | client/libclient/kex.go:866-963 | when the provisionee has settled on a session the provisioner has settled on the same one, and both hold the same link and token |
| `Kex.FinishedIsProvisioned` | client/libclient/kex.go:1030-1077 | a provisionee that finishes has its own doubly signed link on the server |
| `Kex.OneErrorEach` | client/libclient/kex.go:1079-1104 | each side reports at most one error, and none after having been told of one |
| `Kex.NeverTheWrongMessage` | client/libclient/kex.go:379-408 | what is stored under the number a side waits for is of the type it expects, or an error |
| `KexAlignment.RunIsAligned` | client/libclient/kex.go:244-316 | send counters and mailbox stay in step unless a send has failed |
| `KexAlignment.NumbersAreAligned` | client/libclient/kex.go:244-316 | while no send has failed, numbers are consecutive and a side waits for exactly the number of the peer's next message |
| `KexRuns.LostSendMisaligns` | client/libclient/kex.go:271-298 | after one lost send the error report carries a number nobody waits for |
| `KexAlignment.HoleIffPostedAfterLoss` | client/libclient/kex.go:271-298 | numbers on a session have a hole exactly where a side posted after one of its own earlier sends there never arrived |
| `KexAlignment.WithoutHolesNothingIsMissed` | client/libclient/kex.go:300-316 | where that never happened, a side that finds nothing under the number it waits for has missed no later message |
| `KexRuns.ExchangeCompletes` | client/libclient/kex.go:747-805 | some run finishes on both sides, for every configuration |
| `KexSecrets.KexSecret.constructor` | client/libclient/kex.go:52-60 | both counters start at zero |
| `KexSecrets.KexSecret.Wrap` | client/libclient/kex.go:244-274 | seals under the next number, which is spent at once |
| `KexSecrets.KexSecret.NextReceive` | client/libclient/kex.go:300-316 | asks for the next number |
| `KexSecrets.KexSecret.Unwrap` | client/libclient/kex.go:318-341 | yields a message exactly if a holder of the secret wrapped it under the labels it came with, and not the receiver |
| `KexSecrets.UnwrapUndoesWrap` | client/libclient/kex.go:244-341 | a wrapped message comes out exactly at the other end of the same session |
| `KexSecrets.UnwrapIsAuthentic` | client/libclient/kex.go:318-341 | whatever unwraps was wrapped by a holder of the secret under those labels, and not by the receiver |
| `KexSecrets.Deliver` | client/libclient/kex.go:281-316 | two ends in step deliver the next message and stay in step |
| `Merkle.PlaceNodes` | lib/merkle/client.go:68-102 | the pass down finds where each node starts, or that the path is malformed |
| `Merkle.HashUp` | lib/merkle/client.go:147-155 | the pass up computes the hash of the whole path |
| `Merkle.VerifyPath` | lib/merkle/client.go:68-180 | the two loops accept exactly the paths whose recursive hash is the root |
| `Merkle.ChildIsDetermined` | proto/lib/extras.go:854-877 | a node determines prefix, sibling and the child on the key's side |
| `Merkle.PathsCoincide` | lib/merkle/client.go:68-180 | two accepted paths for one key under one root end at the same node |
| `Merkle.RootIsBinding` | lib/merkle/client.go:14-58 | under one root a key has at most one value, and never a value and an absence proof |
| `Merkle.ProofHashes` | lib/merkle/client.go:68-180 | the path read off an honest tree hashes to its root |
| `Merkle.ProofFinds` | lib/merkle/client.go:36-58 | that path finds a value exactly if the tree holds it |
| `Merkle.VerifiedPathDecides` | lib/merkle/client.go:68-180 | one path that verifies settles what can be proved of its key: the value it finds and no other, or absence |
| `Merkle.VerificationDecidesLookup` | lib/merkle/client.go:14-58 | some path proves presence of a value exactly if the tree holds it, and some path proves absence exactly if it holds none |
| `ChainLoad.BaseChainLoader.CheckChain` | client/libclient/base_chain_loader.go:47-113 | accepts exactly the links that follow one another; otherwise reports the first fault and keeps the old last hash |
| `ChainLoad.BaseChainLoader.CheckMerklePaths` | client/libclient/base_chain_loader.go:115-250 | accepts exactly the loads whose every link is proved at its committed location and whose next location is proved empty; records every leaf |
| `ChainLoad.BaseChainLoader.Check` | client/libclient/chain_loader.go:137-195 | both checks on a fresh loader |
| `ChainLoad.SameSoFar` | client/libclient/base_chain_loader.go:115-250 | two accepted loads agree on every link of the first |
| `ChainLoad.AcceptedChainIsUnique` | client/libclient/base_chain_loader.go:47-250 | one root admits one chain: no fork and no truncation is accepted |
| `ChainLoad.ReusedLoaderAcceptsIff` | client/libclient/chain_loader.go:364-367 | a loader that kept hashes of an earlier attempt accepts a good load exactly if those hashes happen to be the ones it needs |
| `ChainLoad.KeptHashRefusesGoodLoad` | client/libclient/chain_loader.go:364-367 | an honest load of one link that a fresh loader accepts, and one that kept a hash refuses unless it is that link's own |
| `ChainLoad.HonestLoadIsAccepted` | client/libclient/base_chain_loader.go:115-250 | paths read off an honest tree are accepted |
| `GenericChain.TeamMembershipLoader.LoadState` | client/libclient/team_membership_loader.go:360-381 | loads exactly the saved lists of teams, into the map they list |
| `GenericChain.TeamMembershipLoader.PlayLink` | client/libclient/team_membership_loader.go:383-401 | plays exactly the membership payloads; the map is untouched otherwise |
| `GenericChain.TeamMembershipLoader.SaveState` | client/libclient/team_membership_loader.go:403-417 | writes a list sorted by team with every entry of the map once |
| `GenericChain.LoadUndoesSave` | client/libclient/team_membership_loader.go:360-417 | loading what was saved gives back the map, however the sort broke ties |
| `GenericChain.GenericChainLoader.constructor` | client/libclient/chain_loader.go:30-57 | a loader starts fresh |
| `GenericChain.GenericChainLoader.OpenLinks` | client/libclient/chain_loader.go:115-128 | succeeds exactly if every link opens |
| `GenericChain.GenericChainLoader.PlayLinks` | client/libclient/chain_loader.go:294-302 | succeeds exactly if every link can be played, with the map that playing them gives |
| `GenericChain.GenericChainLoader.RunOnce` | client/libclient/chain_loader.go:339-362 | one attempt succeeds exactly on accepted loads and then saves the new state; a failed one leaves the saved state |
| `GenericChain.ChainAppend` | client/libclient/base_chain_loader.go:47-113 | a chain is in order exactly if it is in order up to any point and from there on |
| `GenericChain.PlayAppend` | client/libclient/chain_loader.go:294-302 | playing two stretches is playing them one after the other |
| `GenericChain.IncrementalIsReplay` | client/libclient/chain_loader.go:294-337 | saved state plus an accepted suffix represents the whole chain: same map, same tail, same last hash |
| `GenericChain.RunIsReplay` | client/libclient/chain_loader.go:339-362 | after any number of loads, what is saved is what replaying all their links would save |
| `GenericChain.GrowingTreeExtends` | lib/merkle/client.go:14-58 | an honest tree that only gains leaves never contradicts what was proved in its earlier self |
| `GenericChain.SettledChainsAgree` | client/libclient/base_chain_loader.go:115-250 | two chains that are settled link by link under one root and end there are the same |
| `GenericChain.IncrementalLoadsAreFullLoad` | client/libclient/chain_loader.go:61-105 | if each root extends the earlier ones, any sequence of incremental loads adds up to exactly the links of a full load under the last root |
| `GenericChain.RunEqualsFullLoad` | client/libclient/chain_loader.go:294-362 | a loader that has been updating all along and one that loads everything now end up with the same map, tail and last hash |
| `Explore.ExploreState.ClaimUnvisited` | client/libclient/team_minder.go:835-843 | exactly the first claim of a team is told so |
| `Explore.Pool.Dispatch` | client/libclient/team_minder.go:1101-1110 | launches the front of the queue, keeps the invariant and reduces the work left |
| `Explore.Pool.MoveWorker` | client/libclient/team_minder.go:938-1043 | one step of one worker |
| `Explore.Pool.StepWorker` | client/libclient/team_minder.go:938-1043 | the same, keeping the invariant and reducing the work left |
| `Explore.Pool.ClaimFound` | client/libclient/team_minder.go:1127-1137 | queues exactly the teams found that nobody claimed before |
| `Explore.Pool.TakeResult` | client/libclient/team_minder.go:1114-1139 | one received result |
| `Explore.Pool.ReceiveResult` | client/libclient/team_minder.go:1114-1139 | the same, keeping the invariant and reducing the work left |
| `Explore.ClaimSeeds` | client/libclient/team_minder.go:1084-1086 | claims every seed, named twice or not |
| `Explore.DispatchOk` | client/libclient/team_minder.go:1101-1110 | dispatching keeps the invariant |
| `Explore.StepOk` | client/libclient/team_minder.go:879-936 | a worker's step keeps it; the record of the member team it asks for is always there |
| `Explore.ReceiveOk` | client/libclient/team_minder.go:1114-1139 | receiving keeps it |
| `Explore.EndIsPromised` | client/libclient/team_minder.go:1076-1141 | at the end, if nothing failed, every claimed team is a vertex, every edge leads to one, and each team was loaded once apart from repeated seeds |
| `Explore.StepFaithful` | client/libclient/team_minder.go:938-1043 | a worker's result is what the server answered |
| `Explore.ReceiveFaithful` | client/libclient/team_minder.go:1114-1139 | recorded edges are what the server answered, and only found teams are claimed |
| `Explore.ExplorePool` | client/libclient/team_minder.go:1076-1141 | under any schedule the walk ends, with at most the configured number of loads outstanding, every launched load received, and the promises above |
| `Puks.SeedsFor` | client/libclient/rotate_mgr.go:414-472 | the next key of each role, the keys to post and the links, for roles in order |
| `Puks.RotateMgr.constructor` | client/libclient/rotate_mgr.go:121-135 | a manager starts with nothing made |
| `Puks.RotateMgr.CheckRevoke` | client/libclient/rotate_mgr.go:546-588 | a target may be revoked exactly if the chain has it unrevoked at a role not above the caller's and it is not the last owner |
| `Puks.RotateMgr.CheckRotate` | client/libclient/rotate_mgr.go:512-537 | a forced rotation needs one role the device can read; the target role is the highest one forced |
| `Puks.RotateMgr.SortedRoleList` | client/libclient/rotate_mgr.go:403-410 | the roles in strictly ascending order, each once |
| `Puks.RotateMgr.MakeSeeds` | client/libclient/rotate_mgr.go:414-472 | next keys for all roles, and keys and links for the rotating ones |
| `Puks.RotateMgr.BoxForDevice` | client/libclient/rotate_mgr.go:357-401 | the boxes for one device |
| `Puks.RotateMgr.MakeBoxes` | client/libclient/rotate_mgr.go:357-401 | boxes for every active device; none when a device revokes itself |
| `Puks.RotateMgr.Revoke` | client/libclient/rotate_mgr.go:57-106 | revoking another device raises exactly the roles at or below the target's by one, adds one link for each, posts exactly the new keys, boxes each new key once for every other active device of sufficient role and never for the target |
| `Puks.RevocationDistributes` | client/libclient/rotate_mgr.go:414-472 | the keys and links part of that |
| `Puks.BoxesAreDistributed` | client/libclient/rotate_mgr.go:357-401 | the boxes part of that |
| `Puks.LinksSound` | client/libclient/rotate_mgr.go:456-469 | each link seals the old key of a rotating role under its new one, roles ascending |
| `Puks.LinksComplete` | client/libclient/rotate_mgr.go:456-469 | each rotating role has a link |
| `Puks.PostedWithLinks` | client/libclient/rotate_mgr.go:445-469 | the keys posted are the new keys of the rotating roles, in step with the links |
| `Puks.RotationIsTakenIff` | server/shared/sharedkey.go:93-210 | the server takes the boxes exactly if every boxed role rotates; a revocation always meets that |
| `Puks.MemberRotationIsRefused` | client/libclient/rotate_mgr.go:357-401 | forcing the member key alone of a user with an owner key makes boxes the server refuses |
| `PukHistory.DecryptRecoversHistory` | client/libclient/puk_minder.go:261-330 | a box of generation n with the full chain opens to the whole history exactly if n is the newest generation |
| `PukHistory.PUKMinder.GetParcel` | client/libclient/puk_minder.go:197-232 | the cached parcel if recent enough, else the server's; what is returned is recent enough and cached |
| `PukHistory.PUKMinder.GetSet` | client/libclient/puk_minder.go:118-139 | from memory if the generation is there, else decrypted from a recent enough parcel and remembered |
| `PukHistory.SignUpOk` | server/engine/reg.go:272-288 | an account with one owner device and its first key meets the invariant |
| `PukHistory.StepKeepsInv` | server/shared/sharedkey.go:93-517 | provisioning at a role that has a key, provisioning that makes a role's first key, revocation and rotation all keep it |
| `PukHistory.RunKeepsInv` | server/shared/sharedkey.go:93-517 | over every run of those, boxes hold the keys they are labelled with, active devices hold the key of their own role and are up to date in every role they were given, and an owner device remains |
| `PukHistory.GivenIffGrown` | lib/core/chain.go:178-195 | in any step a device that stays is boxed a role's newest key exactly if it may read the role and that key is new |
| `PukHistory.DeviceRecoversHistory` | client/libclient/puk_minder.go:55-61 | in every reachable state an active device with a box of a role recovers generations 1 to the newest, and `At(g)` is generation g |
| `PukHistory.RevokedIsLeftBehind` | client/libclient/rotate_mgr.go:357-401 | after being revoked, a device has no box of the newest key of a role |
| `PukHistory.RevokedForGood` | client/libclient/rotate_mgr.go:357-401 | and never gets one again |
| `PukHistory.DerivableIffGiven` | server/engine/user.go:1005-1095 | from all boxes and links the server stores, a device can derive exactly the keys at or below one it was ever boxed |
| `PukHistory.NewestDerivableIffBoxed` | server/engine/user.go:1005-1095 | in every reachable state a device can derive the newest key of a role exactly if it was boxed that key |
| `PukHolders.RotatorLoadsEveryKey` | client/libclient/rotate_mgr.go:482-495 | in every reachable state, what the doer of a rotation decrypts for a role is the whole history the rotation goes on to use |
| `PukHolders.HoldsOverStep` | client/libclient/rotate_mgr.go:357-401 | in one step a device that stays keeps the roles it can load and gains exactly the new keys of roles it may read |
| `PukHolders.HoldsOverRun` | client/libclient/rotate_mgr.go:357-401 | the same between any two states of a run |
| `PukHolders.NewDeviceHolds` | client/libclient/kex.go:511-582 | a device just provisioned can load its own role's keys and no other's |
| `PukHolders.HoldsIff` | client/libclient/kex.go:511-582 | in every reachable state an active device can load a role's keys exactly if the role is its own, or is one it may read whose key has changed since it joined |
| `PukHolders.NewDeviceRotatesIff` | client/libclient/rotate_mgr.go:482-495 | a device just provisioned is able to rotate exactly if the account has no role but the owner's |
| `PukHolders.StepSticksIff` | client/libclient/rotate_mgr.go:546-588 | the steps that leave a user without a device able to rotate are exactly the self-revocations made while no other active device holds the key of every role |
| `PukHolders.StuckForGood` | client/libclient/rotate_mgr.go:57-106 | once no device is able to, none ever is again, and no key is rotated and no device revoked in the rest of the run |
| `PukHolders.LastRotatorMayLeave` | client/libclient/rotate_mgr.go:546-588 | the checks let the only such device revoke itself as long as another owner device exists |
| `PukHolders.SelfRevocationSticks` | client/libclient/rotate_mgr.go:546-588 | from signup, a member device joins, an owner device joins and the first one leaves: a reachable account that is stuck |
| `PukHistory.RevokedDerivesNothingNew` | client/libclient/rotate_mgr.go:357-472 | a device revoked by another can derive, from all boxes and links together, no key made at its revocation or later, of any role |
| `Passphrases.PassphraseServer.Update` | server/shared/passphrase.go:15-188 | a row is taken exactly if it is the next generation, with a salt exactly for the first |
| `Passphrases.PassphraseManager.SetPassphrase` | client/libclient/passphrase_mgr.go:146-223 | works exactly on an empty manager and an empty account |
| `Passphrases.PassphraseManager.Refresh` | client/libclient/passphrase_mgr.go:321-425 | adopts the server's list exactly if a PUK opens the newest row |
| `Passphrases.PassphraseManager.ChangeFrom` | client/libclient/passphrase_mgr.go:473-542 | appends one wrapping key exactly if the manager is up to date |
| `Passphrases.PassphraseManager.ChangePassphrase` | client/libclient/passphrase_mgr.go:459-471 | works exactly if the stretched passphrase held is of the newest generation |
| `Passphrases.PassphraseManager.ChangePassphraseWithPUK` | client/libclient/passphrase_mgr.go:427-457 | works exactly if a PUK opens the newest row |
| `Passphrases.PassphraseManager.RotateWithPUK` | client/libclient/passphrase_mgr.go:265-309 | makes the next row under the same passphrase key; the manager stays one key behind it |
| `Passphrases.PassphraseManager.Login` | client/libclient/passphrase_mgr.go:666-777 | works exactly with the newest passphrase, and loads the whole list |
| `Passphrases.PassphraseManager.Logout` | client/libclient/passphrase_mgr.go:62-67 | forgets list and passphrase |
| `Passphrases.PassphraseManager.GetSkmwk` | client/libclient/passphrase_mgr.go:94-113 | the wrapping key of a generation, exactly for 1 to the length of the list |
| `Passphrases.PassphraseManager.SealBundle` | client/libclient/skm_mgr.go:620-687 | seals under the newest key held, which is the ledger's of that generation |
| `Passphrases.PassphraseManager.OpenBundle` | client/libclient/skm_mgr.go:510-529 | opens every bundle sealed in the ledger up to the length held, and nothing under a wrong key |
| `Passphrases.LoginIff` | client/libclient/passphrase_mgr.go:666-777 | logging in works with the newest row's passphrase and no other |
| `Passphrases.UnlockIff` | client/libclient/passphrase_mgr.go:352-425 | unlocking works exactly with a PUK history that has the key the newest row was boxed for |
| `Passphrases.OldBundleOpensByPassphrase` | client/libclient/skm_mgr.go:510-529 | a bundle of any earlier generation opens for whoever has the current passphrase |
| `Passphrases.OldBundleOpensByPuk` | client/libclient/skm_mgr.go:510-529 | and for whoever has the PUKs |
| `Passphrases.RotationKeepsPassphrase` | client/libclient/passphrase_mgr.go:265-309 | a rotation's row extends the ledger and the same passphrases log in as before |
| `Passphrases.RowsOnlyGrow` | server/shared/passphrase.go:15-188 | with managers racing, rows and salt are never taken back |
| `Passphrases.TakenIffViewIsCurrent` | client/libclient/passphrase_mgr.go:473-542 | a post made from an old view is taken exactly if nobody posted since its generation was seen, also when its list of wrapping keys was refreshed later |
| `Passphrases.RunKeepsLedger` | client/libclient/passphrase_mgr.go:146-309 | in every interleaving the list's length is the generation and no earlier key changes |
| `Passphrases.SealedBundleStaysOpenable` | client/libclient/skm_mgr.go:659-687 | a bundle sealed at any time of a run opens at every later time, by passphrase and by PUK |
| `Rationals.Compare` | lib/core/rational.go:61-85 | the loop over places computes the recursive comparison |
| `Rationals.CmpIsNumericOrder` | lib/core/rational.go:61-85 | comparison is the order of the numbers, infinity on top |
| `Rationals.RightShift` | lib/core/rational.go:214-244 | the loop over digits computes the recursive shift |
| `Rationals.RshHalves` | lib/core/rational.go:214-244 | a right shift halves exactly |
| `Rationals.LeftShift` | lib/core/rational.go:246-278 | the loop over digits computes the recursive shift |
| `Rationals.LshDoubles` | lib/core/rational.go:246-278 | a left shift doubles exactly |
| `IndexRanges.RangeTracker.AddIndexRange` | client/libclient/team_loader.go:1347-1477 | the first link must set a range, a later one may only narrow it properly |
| `IndexRanges.SetIndexRange` | client/libclient/team_minder_index_range.go:58-76 | a request is taken exactly if the new range is inside the old one and differs from it |
| `IndexRanges.SetIndexRangeHigh` | client/libclient/team_minder_index_range.go:36-56 | a request is taken exactly if the new top is a smaller number; the result is inside the old range, and well formed exactly if the top is not below the bottom |
| `IndexRanges.SetIndexRangeLow` | client/libclient/team_minder_index_range.go:78-98 | a request is taken exactly if the new bottom is a larger number; the same for the result |
| `IndexRanges.LowerHalves` | client/libclient/team_minder_index_range.go:154-178 | lowering fails exactly for a range without a top other than the default one; it stays inside, gives the default range the top 32, halves any other top exactly, changes nothing exactly for the top 0, and is well formed exactly while twice the bottom fits under the top |
| `IndexRanges.RaiseDoubles` | client/libclient/team_minder_index_range.go:180-204 | raising fails exactly for a range that starts at infinity; it stays inside, gives the default range the bottom 128, doubles any other bottom exactly, changes nothing exactly for the bottom 0, and is well formed exactly while the doubled bottom fits under the top |
| `IndexRanges.ApartStaysApart` | client/libclient/team_loader.go:209-223 | ranges that are apart stay apart when either shrinks |
| `IndexRanges.StepKeepsInv` | client/libclient/team_minder_inbox.go:1020-1024 | every step keeps members below their parents, whatever stale views the admin had |
| `IndexRanges.RunKeepsInv` | client/libclient/team_minder_inbox.go:950-953 | so does every run |
| `IndexRanges.MembersLieBelow` | client/libclient/team_loader.go:209-223 | in every reachable state each member team's range lies below its parent's |
| `IndexRanges.NoCycleAmongWellFormed` | client/libclient/team_minder_inbox.go:606-618 | a membership cycle can only run through a team whose range is upside down |
| `IndexRanges.ServersKeepRangesWellFormed` | server/shared/team.go:1833-1873 | servers that read ranges back in the storing transaction keep every range well formed |
| `IndexRanges.ServersKeepGraphAcyclic` | server/engine/team_admin.go:823-831 | with such servers no run ever makes a cycle |
| `IndexRanges.CrossedRangeAllowsCycle` | client/libclient/team_loader.go:1444-1477 | by the client's checks alone, a range narrowed until its ends cross allows a cycle of two teams |
| `IndexRanges.UpsideDownAdmitsCycle` | client/libclient/team_minder_inbox.go:1020-1024 | a team whose range is upside down passes the check to join itself |
| `IndexRanges.CycleAdmittedIffUpsideDown` | client/libclient/team_minder_inbox.go:606-618 | with the ranges as they are, the client's checks admit a cycle exactly if some range is upside down |
| `PartyCache.EveryOpIsOrdered` | client/libclient/party_loader_cache.go:113-159 | every operation, on every path through it, takes locks in the stated order and keeps none |
| `PartyCache.LoadTeamIsOrdered` | client/libclient/party_loader_cache.go:207-289 | so does a team load, also when one team is named two ways |
| `PartyCache.RefreshIsOrdered` | client/libclient/party_loader_cache.go:300-311 | so does a refresh, with or without a team to load again |
| `PartyCache.PrivateKeysIsOrdered` | client/libclient/party_loader_cache.go:333-357 | so does fetching keys: held already, no longer ahead, reloaded, or failed to reload |
| `PartyCache.LookupTakesNode` | client/libclient/party_loader_cache.go:125-159 | a lookup ends holding just the node |
| `PartyCache.StepKeepsInv` | lib/core/locktab.go:30-59 | every step of every thread keeps ordering and mutual exclusion |
| `PartyCache.RunKeepsInv` | client/libclient/party_loader_cache.go:113-159 | so does every run |
| `PartyCache.SomebodyCanMove` | client/libclient/party_loader_cache.go:113-159 | if some thread has work left, some thread can move |
| `PartyCache.NeverStuck` | client/libclient/party_loader_cache.go:113-159 | no reachable state is deadlocked, with readers, writers and queued writers |
| `PartyCache.NoCircularWait` | client/libclient/party_loader_cache.go:113-159 | no chain of waiting threads comes back to its start |
| `PartyCache.ReloadClock.Claim` | client/libclient/party_loader_cache.go:369-375 | grants a reload unless one was granted less than the floor ago |
| `PartyCache.ReloadsAreSpaced` | client/libclient/party_loader_cache.go:313-317 | on a clock that does not go back, two granted reloads of a node are at least the floor apart |
| `ViewTokens.TeamLoader.TokenAt` | client/libclient/team_loader.go:956-984 | a generation challenged before is not challenged again |
| `ViewTokens.TeamLoader.FindToken` | client/libclient/team_loader.go:994-1050 | returns what the search describes, having challenged no generation twice and, for want of permission, every one |
| `ViewTokens.TeamLoader.Retry` | client/libclient/team_loader.go:1036-1050 | the descent to generation 1 |
| `ViewTokens.TeamLoader.MakeViewToken` | client/libclient/team_loader.go:954-1071 | records the token found with the generation used, unless it is for another team than the one asked for; then and on any failure nothing is recorded |
| `ViewTokens.DescendFinds` | client/libclient/team_loader.go:1036-1050 | the descent finds the highest granted generation, or none is granted |
| `ViewTokens.SearchFindsToken` | client/libclient/team_loader.go:954-1071 | absent other failures, a token is found exactly if some generation in range is granted; otherwise the first refusal is reported |
| `SecretStores.SecretStore.Lookup` | client/libclient/secret_store.go:478-516 | the first match forwards, the last one backwards |
| `SecretStores.SecretStore.Save` | client/libclient/secret_store.go:168-240 | after a successful save the disk has the rows |
| `SecretStores.SecretStore.Put` | client/libclient/secret_store.go:518-541 | refuses exactly a device that is there or a role that has a settled row |
| `SecretStores.SecretStore.Get` | client/libclient/secret_store.go:253-271 | by device the row of that device, by role the most recent row that qualifies; none exactly if no row matches |
| `SecretStores.SecretStore.ClearProvisionalBits` | client/libclient/secret_store.go:326-400 | settles exactly the named devices and saves if that changed anything |
| `SecretStores.SecretStore.UpdateAndSave` | client/libclient/secret_store.go:552-593 | fails exactly if the device is missing or the save does not work; a failed save puts the row back; a store that was right about being saved is then wrong exactly if the device is there, the save does not work and something was unsaved before |
| `SecretStores.FailedUpdateForgetsNewRow` | client/libclient/secret_store.go:552-593 | a row is put and a change to it cannot be saved: a later save reports success and writes nothing |
| `SecretStores.SecretStore.Delete` | client/libclient/secret_store.go:308-324 | deletes the most recent row of the role exactly if it is the device meant |
| `SecretStores.ClearKeepsRolesUniqueIff` | client/libclient/secret_store.go:365-400 | clearing keeps one settled row for each role exactly if no two rows of it are settled or about to be |
| `SecretStores.ClearingTwoRowsBreaksRolesUnique` | client/libclient/secret_store.go:365-400 | two provisional rows of one role that are both cleared |

## Left out

- Real cryptography and encoding (stretching, hybrid encryption, signatures, keychains, noise files): symbolic terms.
- RPC, databases, retries of whole operations on races (`runMany`, `TeamEditor.Run` after a race), logging and configuration: plumbing around the steps modelled.
- `checkNameLoad`, `checkSigningKeys` and the user-settings check inside `RotateWithPUK`: what they accept is a parameter or taken as passed.
- Team metadata, removal keys, remote view tokens, delegate fills and key limits of a team edit: they do not touch keys or roster.
- TeamHistory.EditKeepsInv: edits are those that ask for an owner to remain, as the client's editor does, with freshly drawn seeds and member key generations counted from 1.
- TeamHistory.EditorMakesTheNewBoxes: that the author holds the newest key of every role it reads is assumed; it is shown from the loader while no box is stranded (`EditorLoadsItsRing`), and an author that cannot load a key could not make the edit.
- TeamAccess.CurrentKeyDerivableIffEntitled: about what the server stores; a former author still remembers keys it generated itself.
- GenericChain.IncrementalLoadsAreFullLoad: that later roots extend earlier ones is proved for an honest tree that only grows (`GrowingTreeExtends`) and assumed of any other; the session that checks new roots against known ones is not part of this model.
- Kex.RunKeepsInv: one exchange between two honest devices; box keys are not guessed, and the mailbox stores at most one message under one number and makes up none.
- Keyring.UnboxedIsInOrder: an exact condition is given where the newest parcel reaches the keys held; for a walk through several parcels truly labelled chains are shown to be enough, and no exact condition is given.
- PukHistory.RunKeepsInv: follows the link generator and the server in making a role's first key while provisioning; the agent's own lookup (client/agent/kex.go:386-416) stops with an error when the role has no key.
- Puks.RotateMgr.Revoke: the posting of the result and the clearing of local stores after a self-revocation are not modelled.
- IndexRanges.NoCycleAmongWellFormed: memberships enter through the inbox; direct adds by `teamAdder.loadTeam` have no range check in the client.
- Explore.ExplorePool: warnings and updates that a worker records are written but nothing is promised of them; `TopoTraverseOrder` and the fixing of warnings are not part of this model.
- PartyCache.NeverStuck: the work done under the locks is one opaque step that ends, the user's own lock is not modelled, and fairness of the scheduler is not modelled.
- `bg_jobs.go`, name cache, user list, nags, offline unlock, sign-up and YubiKey flows: easy invariants or field shuffling.
