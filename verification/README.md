# ProofRail's authority kernel, modelled in Dafny

ProofRail lets an agent act only with a signed, single-use permit, and keeps a
tamper-evident record of what was evaluated, spent, executed and observed. This
project models the kernel that makes those promises and proves what it keeps over
all inputs and all interleavings.

`dafny verify dfyconfig.toml` checks everything.

| file | what it models |
|---|---|
| `Hashing.dfy` | JSON records, canonical encodings, SHA-256, Ed25519 record signatures, HMAC document signatures |
| `Rbac.dfy`, `Identity.dfy` | roles and permissions, and the identity root over a tenant's roles |
| `Merkle.dfy` | the in-place Merkle loop with odd-node duplication, and exactly when two lists collide |
| `Ledger.dfy` | the hash chain: `verify_ledger`, `Ledger`, `export_ledger` |
| `Commitments.dfy` | ledger checkpoints and external anchors |
| `Sorting.dfy` | `sorted` on strings |
| `Quorum.dfy`, `QuorumLoop.dfy`, `QuorumOrder.dfy` | the meaning of an M-of-N verdict, its theorems, `verify_quorum` proved against it, and exactly when a verdict depends on the order of the attestations |
| `Trust.dfy`, `Permit.dfy` | the replay registry root, trust checkpoints, minting and verifying permits |
| `Spending.dfy`, `SpendingReads.dfy` | executors spending merge and migration permits, interleaved step by step, and exactly when two of them spend under one checkpoint |
| `Server.dfy`, `ServerSafety.dfy`, `ServerHistory.dfy`, `ServerTheorems.dfy` | the server's locked sections as threads, the invariant of every step, what each execution saw under the lock, and the theorems over runs |
| `ServerRequests.dfy` | exactly when each request adds an object, and what the object says |
| `ServerDuties.dfy`, `ServerFreshness.dfy` | who minted and who executed, and that nothing an evaluation saw has changed when its permit is executed |
| `ServerRoots.dfy`, `ServerWitness.dfy` | the checks on each next checkpoint never fail, and a whole run from a fresh server with two outcomes for one execution |
| `Pilot.dfy` | the same requests as methods of the server object |
| `GitHubAdapter.dfy` | the merge adapter against a pull request other people push to and merge |
| `Policy.dfy`, `PolicyHistory.dfy` | immutable policy versions, activation and rollback by quorum, and the permission behind every version and activation |
| `Bridge.dfy` | the bridge: at most one execution per action digest |
| `Gate.dfy` | the evidence gate |
| `Audit.dfy` | the audit ledger and its table rows |

## How it is modelled

- A component whose steps interleave is a state machine: a datatype of states, a
  datatype of events, `Apply` for one event and `Run` for a list of them. Every
  committed transaction is one event, the reads before it are events of their own,
  and a crash, an exception or a restart is an event too. A theorem about runs
  quantifies over all lists of events. Classes (`LedgerChain.Ledger`,
  `Spending.ReplayRegistry`, `Pilot.PilotControlPlane`,
  `GitHubAdapter.GitHubMergeAdapter`, `Policies.ControlPlane`,
  `Bridge.OpenClawProofRailBridge`, `Audit.AuditTrail`) hold the source's mutable
  fields; their methods are proved against the same functions.
- The cryptographic library is a parameter, `Hashing.Suite`: 32-byte digests, the
  two JSON encodings readable back, signatures that check. SHA-256 is never assumed
  injective. A theorem that needs it names the finite set of byte strings hashed in
  its own scenario and asks that no two of those collide (`CollisionFree`); that
  "GENESIS" is no digest is proved. Unforgeability is used by one theorem,
  `Quorum.HonestQuorum`, as the hypothesis `Unforgeable` about the attestations at hand.
- Clocks, identifiers, adapter replies, parsers and formats (`fromisoformat`,
  `isoformat`, `int(x, 16)`, `str`) are parameters. Instants are microseconds. `ClockValid` says that what the clock formats it also parses.
- The keys of JSON objects are the constructors of `Hashing.Field`, and the fixed
  strings of record kinds and the like are those of `Hashing.Constant`; any other key
  or string is `Other(name)` or `Str(text)`.

## Where the code and an obvious reading differ

- Two different lists can share a Merkle root, because the odd node is duplicated:
  `Merkle.RootCollisionCondition` gives the exact condition and
  `Merkle.RepeatingTheLastRecordKeepsTheRoot` a family of collisions.
- `digest_ledger_entry` drops `signature` besides `entry_hash`, so the chain binds
  entries up to their signature only (`LedgerChain.InnerEntryIsFixedUpToSignature`),
  while a Merkle leaf binds the whole record.
- The migration path has no recheck under the write lock, so one spend per checkpoint
  holds of merges only. `Spending.OneSpendPerCheckpoint` proves it of merges,
  `SpendingReads.SecondSpendIsAnOvertakenMigration` gives the exact condition for two
  trust-bound spends under one replay root, and
  `SpendingReads.TwoMigrationsSpendOneCheckpoint` is a run in which it happens.
- A preflight "already merged" receipt need not carry a merge commit
  (`GitHubAdapter.OperationIdIsTheMergeCommit`,
  `GitHubAdapter.PreflightSuccessMayLackItsCommit`); the bridge then records the
  outcome as unknown (`Bridge.GitHubReceiptsAreAccepted`).
- A `failed` GitHub receipt can stand beside our own applied merge
  (`GitHubAdapter.FailedYetMerged` gives the exact condition).
- An administrator has `permit:mint`, but its role is no issuer's, and a governor may
  issue but has not that permission: through the server only verifiers mint
  (`ServerSafety.OnlyVerifiersMint`).
- Reconciliation outcomes are not sticky: `STATE_MACHINE.md:84` rules out leaving a
  terminal state, but the code lets a successful reconciliation follow a failed one
  (`ServerWitness.OutcomesAreNotSticky`). Two outcomes of one execution differ exactly
  when their own verdicts differ on the test for RECONCILED
  (`ServerTheorems.OutcomesFollowTheirOwnVerdicts`).
- The `signers` of a quorum that was not met can depend on the input order, though
  groups are compared by sorted record hashes: a voter with two counted attestations of
  one statement contributes whichever came first. `QuorumOrder.OrderFreeExactlyWhenDecided`
  gives the exact condition and `QuorumOrder.OrderMattersHere` an input.

## Model

| member | source | states |
|---|---|---|
| Hashing.SignThenVerify | proofrail/crypto.py:33-75 | a signed record verifies under its own key, carries the hash of its content and keeps that content |
| Hashing.VerifiedIsGenuine | proofrail/crypto.py:54-75 | verification accepts exactly the records that carry the hash of their content and an Ed25519 signature over everything else that checks under the key |
| Hashing.VerifiedIsSealed | proofrail/core.py:68-75 | document verification accepts exactly the documents that carry the HMAC of their other fields |
| Hashing.RecordHashFixesContent | proofrail/crypto.py:27-75 | two verified records have the same record hash exactly when they agree on everything but `signature` |
| Hashing.SignedDocumentVerifies | proofrail/core.py:37-75 | a document signed with a shared secret verifies under that secret and keeps its digest |
| Hashing.NoDigestIsGenesis | proofrail/checkpoint.py:64-76 | the chain's first link "GENESIS" is never the digest of anything |
| Rbac.WhoMay | proofrail/rbac.py:8-43 | each permission belongs exactly to the roles listed for it, and to the administrator unless it is the approval of actions |
| Rbac.DutiesAreSeparated | proofrail/rbac.py:8-27 | no pilot role has two of the permissions to propose, to mint, to execute and to reconcile |
| Rbac.RolesGrantSomething | proofrail/control_plane.py:50-52 | the roles that can be granted are exactly those that grant something |
| Identity.IdentityRootFixesRoles | proofrail/control_plane.py:82-101 | two identity roots are equal exactly for the same tenant with the same principals in the same roles |
| Merkle.RoundIsOneLevel | proofrail/checkpoint.py:27-38 | one round of pairing with odd-node duplication removes exactly one level of the recursively defined tree |
| Merkle.ComputeMerkleRoot | proofrail/checkpoint.py:23-38 | the in-place loop returns the root of the recursive definition, takes exactly ceil(log2 n) rounds and hashes between n - 1 and n - 1 + ceil(log2 n) inner nodes |
| Merkle.DigestFixesTree | proofrail/checkpoint.py:27-38 | with the 0x00 and 0x01 prefixes, equal digests mean equal trees |
| Merkle.RootCollisionCondition | proofrail/checkpoint.py:23-38 | two non-empty lists have the same root if and only if their duplicated, power-of-two padded leaf sequences are equal |
| Merkle.EmptyRootIsUnique | proofrail/checkpoint.py:24-26 | no other list has the root of the empty list |
| Merkle.RootAndCountFixList | proofrail/checkpoint.py:23-38 | root and entry count together determine the list |
| Merkle.RootFixesRepeatFreeList | proofrail/checkpoint.py:23-38 | among lists without repeats the root alone determines the list |
| Merkle.RepeatingTheLastRecordKeepsTheRoot | proofrail/checkpoint.py:29-31 | repeating the last record of any odd list longer than one record leaves the root unchanged |
| LedgerChain.NoProblemIffLinked | proofrail/checkpoint.py:57-97 | `verify_ledger` reports no problem exactly when every line carries its own digest and links to the line before it |
| LedgerChain.VerifyLedger | proofrail/checkpoint.py:57-97 | the report is valid exactly for linked ledgers and gives count, first and last claim and Merkle root; an unreadable source is invalid |
| LedgerChain.LinkedIsPrefixClosed | proofrail/checkpoint.py:57-97 | every prefix of a valid ledger passes verification on its own |
| LedgerChain.LastHashFixesLedger | proofrail/core.py:51-53 | in linked ledgers of entries the last hash fixes the length and every entry up to `signature`, by backward induction to GENESIS |
| LedgerChain.NoEntryTwice | proofrail/checkpoint.py:57-97 | no entry of a linked ledger occurs twice, not even re-signed |
| LedgerChain.RootIdentifiesLedger | proofrail/checkpoint.py:23-97 | the Merkle root alone identifies a linked ledger of entries |
| LedgerChain.InnerEntryIsFixedUpToSignature | proofrail/core.py:37-53 | an entry before the last can be replaced without breaking the chain exactly by a record that differs in nothing but `signature` |
| LedgerChain.AppendKeepsChain | proofrail/core.py:227-265 | appending a sealed entry keeps a chain valid, with sequence numbers 1 to n |
| LedgerChain.Ledger.Append | proofrail/core.py:227-265 | succeeds exactly for an allowed decision that carries the digest of the action, on a file that parses and whose last entry is hashed; adds exactly one chained entry, keeps a written file a written file, and otherwise leaves the file alone |
| LedgerChain.Ledger.Verify | proofrail/core.py:267-290 | accepts exactly the files in which every line parses to an entry and the entries are linked, and counts the lines |
| LedgerChain.EnvelopesRoundTrip | proofrail/checkpoint.py:219-243 | wrapping records into envelopes gives a valid chain whose payloads, in order, are exactly those records, each with the hash of its canonical bytes |
| LedgerChain.WriteLegacyEnvelopes | proofrail/checkpoint.py:219-243 | the loop that threads `previous_hash` writes exactly those envelopes |
| LedgerChain.ExportLedger | proofrail/checkpoint.py:100-139 | succeeds exactly on valid ledgers (same records out) and non-empty unhashed ones (payloads are the records), never with an invalid output |
| Commitments.CreateCheckpoint | proofrail/checkpoint.py:142-170 | succeeds exactly for a readable, linked ledger and a key id that is not blank, with a checkpoint that sums up that ledger |
| Commitments.VerifyCheckpoint | proofrail/checkpoint.py:173-211 | no error exactly when the signature verifies, the ledger is linked and count, hashes and root match |
| Commitments.CheckpointAcceptsOnlyItsLedger | proofrail/checkpoint.py:142-211 | a checkpoint created from a ledger accepts that ledger and no other record list |
| Commitments.OnlyTheCommitmentSeesTruncation | proofrail/checkpoint.py:173-211 | every proper prefix is a valid chain and is rejected by the checkpoint, without any collision hypothesis |
| Commitments.CreateAnchor | proofrail/anchor.py:20-65 | succeeds exactly for a linked ledger, a hexadecimal trust checkpoint hash and texts that are not blank |
| Commitments.VerifyAnchor | proofrail/anchor.py:68-130 | no error exactly when signature, ledger, commitment, sequence range and expected trust checkpoint all match |
| Commitments.AnchorAcceptsOnlyItsLedger | proofrail/anchor.py:20-130 | an anchor accepts exactly the ledger it was created from, and only under its own trust checkpoint |
| Quorum.ConflictNeedsLowThreshold | proofrail/quorum.py:104-114 | signer groups are disjoint, so a conflict implies 2 * threshold <= number of trusted signers |
| Quorum.SignedAttestationCounts | proofrail/quorum.py:29-101 | an attestation signed with a trusted signer's key counts exactly for that signer's role and the panel's kind and subject, as a vote for its statement |
| Quorum.MetSignersSignedTheStatement | proofrail/quorum.py:54-142 | a met quorum is at least `threshold` distinct trusted signers, each with a counted attestation carrying the reported statement |
| Quorum.VerdictIgnoresOrderAndRepetition | proofrail/quorum.py:54-142 | lists with the same members get the same verdict, however often a member is repeated |
| Quorum.VerdictIgnoresOrder | proofrail/quorum.py:54-142 | a permutation of the input can change nothing but the `signers` of a quorum that was not met |
| Quorum.QuorumsIntersect | proofrail/quorum.py:54-142 | two quorums for different statements share at least 2t - n signers, and the union of their inputs reports each of them as equivocal |
| Quorum.HonestQuorum | proofrail/quorum.py:54-142 | with at most t - 1 dishonest signers there is no conflict, and a quorum is met exactly when t undivided voters back the honest statement, which it reports |
| Quorum.ObservationRootFixesAttestations | proofrail/quorum.py:123-140 | two verdicts report one observation root exactly when they count the same attestation hashes, each as often, against the same threshold |
| QuorumLoop.GroupByStatement | proofrail/quorum.py:104-112 | the loop over signers yields exactly the groups of undivided voters, and the equivocal signers |
| QuorumLoop.Largest | proofrail/quorum.py:115-119 | returns a group that no other exceeds by size and then by sorted record hashes |
| QuorumLoop.VerifyQuorum | proofrail/quorum.py:54-142 | the loops return a verdict that meets the set-level specification, in which the reported group is a largest one and leads all others by its sorted record hashes; only a threshold outside 1 to n is refused |
| QuorumOrder.VerdictExists | proofrail/quorum.py:104-142 | every list of attestations has a verdict: the specification is never empty |
| QuorumOrder.OrderFreeExactlyWhenDecided | proofrail/quorum.py:104-119 | no permutation of the input changes the verdict's `signers` if and only if some largest group, taken with each voter's least record hash, still leads every other largest group taken with each voter's greatest |
| QuorumOrder.VerdictIgnoresOrderWithoutDoubles | proofrail/quorum.py:54-142 | when no voter has two counted attestations of one statement with different record hashes, permuted inputs get the same verdict in every field |
| QuorumOrder.SwappingChangesTheSigners | proofrail/quorum.py:104-119 | when a voter attests one statement with record hashes on either side of another voter's, swapping the two moves `signers` from one voter to the other |
| QuorumOrder.OrderMattersHere | proofrail/quorum.py:104-119 | a concrete panel and list for which the swap changes `signers` from B to A |
| TrustState.RowsListTheClaims | proofrail/trust.py:40-71 | the rows under the replay root are exactly the claims in the order of their permit hashes, each with nonce, executor and both timestamps |
| TrustState.SameRootSameRegistry | proofrail/trust.py:40-71 | the replay root, over rows sorted by permit hash, determines the registry |
| TrustState.CreatedCheckpointIs | proofrail/trust.py:95-112 | the signed record verifies and carries its replay root, epoch, counter and predecessor |
| TrustState.TrustCheckpointIsCreated | proofrail/trust.py:74-112 | a checkpoint is created exactly for digests and counters that pass the checks, and then verifies and carries every value it was given |
| TrustState.CheckpointFitsItsRegistryOnly | proofrail/trust.py:74-146 | a created trust checkpoint is valid for exactly one registry state |
| Permits.VerifyAcceptsExactly | proofrail/permit.py:117-202 | verification accepts exactly the permits with the verifier's signature over their own content, of this kind and state, issued by a verifier or governor, not expired, for these roots, this approval and this effect, whose trust terms fit |
| Permits.RefusalsAreReal | proofrail/permit.py:137-202 | every refusal names something that is wrong with the permit |
| Permits.MintsExactly | proofrail/permit.py:36-84 | minting succeeds exactly for terms that pass every check, each spelled out |
| Permits.VerifyTrustMeaning | proofrail/permit.py:183-202 | the trust part of verification passes exactly for an untrusted permit or terms that fit epoch, counter, replay, checkpoint and observation roots |
| Permits.MintedPermitHasTerms | proofrail/permit.py:36-114 | a minted permit verifies under the verifier key and carries every term it was minted with, its expiry in normal form and its id as given or freshly drawn |
| Permits.MintedPermitFitsOnlyItsTerms | proofrail/permit.py:36-202 | a minted permit verifies exactly before expiry, for its own roots, approval and merge effect, and for checkpoint values its trust terms fit |
| Permits.MintedMigrationHasTerms | proofrail/migration.py:36-115 | a minted migration permit verifies and holds exactly its terms, with the digest of the SQL text |
| Permits.MintsMigrationsExactly | proofrail/migration.py:36-90 | minting a migration permit succeeds exactly for terms that pass every check |
| Permits.MintedMigrationFitsOnlyItsTerms | proofrail/migration.py:36-209 | a minted migration permit verifies exactly before expiry, for its own roots, approval, database, schemas, SQL digest and version, and for checkpoint values its trust terms fit |
| Spending.SpendAddsOneClaim | proofrail/permit.py:297-333 | a committed transaction adds exactly one claim, to a registry that lacked its hash and nonce |
| Spending.RunKeepsInv | proofrail/permit.py:205-431 | every run, with crashes anywhere, keeps: claims are only added, each rechecked against the registry it found, and each executor commits and calls at most once |
| Spending.CommittedPermitsAreInForce | proofrail/permit.py:137-191 | over every run each committed claim is of a permit the verifier signed, issued by a verifier or governor, not expired, for the expected roots and approval and the right kind of effect; a migration's instance, schema and SQL are those observed |
| Spending.TrustBoundSpendsFitTheirCheckpoint | proofrail/permit.py:225-310 | over every run a trust-bound permit is spent only under a checkpoint that the checkpoint key signed and that fits its terms, and a merge only while that checkpoint fits the registry |
| Spending.CallsAreVouchedFor | proofrail/permit.py:387-418 | over every run the provider is called only for a permit the verifier signed, claimed in the registry by that call's executor |
| Spending.CallFollowsItsClaim | proofrail/permit.py:387-418 | the provider is called only for a permit whose claim is already committed |
| Spending.ProviderCalledOncePerPermit | proofrail/permit.py:270-336 | over every run the provider is called at most once per permit content and at most once per nonce, merges and migrations together |
| Spending.RegistryOnlyGrows | proofrail/permit.py:297-333 | no run removes or changes a claim |
| Spending.SpentStaysSpent | proofrail/permit.py:270-336 | no run makes a spent permit or nonce spendable again |
| Spending.OneSpendPerCheckpoint | proofrail/permit.py:225-333 | over every run trust-bound merges commit at most once per trust checkpoint, and at most once per replay root |
| SpendingReads.SharedRootsAreSharedReads | proofrail/permit.py:225-333 | over every run, whatever the registry held before it, two trust-bound commits were checked against the same replay root if and only if they read the registry after the same number of commits |
| SpendingReads.MergeReadsWhereItCommits | proofrail/permit.py:297-310 | a trust-bound merge commits only if nothing was committed since its checkpoint was read |
| SpendingReads.SecondSpendIsAnOvertakenMigration | proofrail/migration.py:333-430 | a trust-bound commit shares its replay root with an earlier one if and only if it is a migration that read the registry when the earlier one did, so the earlier commit came between its read and its transaction |
| SpendingReads.TwoMigrationsSpendOneCheckpoint | proofrail/migration.py:333-430 | a run of two trust-bound migrations minted for one checkpoint in which both read, both pass and both commit |
| Spending.RunAlone | proofrail/permit.py:205-354 | with nobody in between, the steps of a spend give the outcome of the three checks in order |
| Spending.SpendsExactly | proofrail/permit.py:205-333 | uninterrupted, a spend succeeds exactly for a permit in force, unspent, with a fresh nonce and, if trust-bound, a fitting signed checkpoint of this very registry |
| Spending.CheckpointRefusals | proofrail/permit.py:221-247 | a missing checkpoint, an overtaken one and one that is not genuine each give their own refusal |
| Spending.ReplayRegistry.Commit | proofrail/permit.py:297-336 | the transaction: recheck for trust-bound merges, two uniqueness constraints, claim and both events, or nothing at all |
| Spending.ReplayRegistry.Consume | proofrail/permit.py:205-354 | succeeds exactly for a spendable permit, leaves the registry and the outcome that the interleaved protocol's steps give, and returns the whole receipt |
| Server.NextIsCheckpoint | proofrail/trust.py:149-170 | the next checkpoint has epoch and counter one higher, the root of the registry as it is, and names its predecessor's hash |
| Server.AdvanceKeepsChain | proofrail/trust.py:149-192 | replacing the last checkpoint by its successor keeps the linear chain |
| Server.SubjectFixesEffect | proofrail/quorum.py:16-26 | two observation subjects are equal exactly when repository, pull number, head and merge method are, although the repository is split at its slash |
| ServerSafety.FreshServerIsInitial | proofrail/server.py:791-804 | the first checkpoint (epoch 1, counter 0, empty ledger and observation roots) starts a valid chain |
| ServerRequests.IntentIsAdded | proofrail/server.py:159-182 | an intent is added exactly by a proposer or administrator, under a new id, for a well-formed effect |
| ServerRequests.EvidenceIsAdded | proofrail/server.py:197-217 | evidence is added exactly by a proposer or administrator for a stored intent of the tenant |
| ServerRequests.EvaluationIsAdded | proofrail/server.py:230-285 | an evaluation is added exactly when it can be made; it permits exactly when every cited evidence item belongs to the intent, and carries the identity root and policy in force and the root of all cited record hashes |
| ServerRequests.EvidenceRootFixesHashes | proofrail/server.py:259-262 | two evidence roots are equal exactly for the same record hashes, each as often |
| ServerRequests.PermitIsAdded | proofrail/server.py:298-346 | a permit is added exactly for a verifier, a permitting evaluation, a lifetime of 1 to 3600 seconds and mintable terms; it is minted from the evaluation, the effect and the stored checkpoint |
| ServerRequests.ExecutionIsRequested | proofrail/server.py:363-383 | a request to execute is taken up exactly from an executor, operator or administrator for a stored permit with a stored evaluation |
| ServerRequests.ReconciliationIsAdded | proofrail/server.py:450-538 | a reconciliation is recorded exactly by a reconciler or administrator for a stored execution, and confirmed exactly when the quorum saw the merge at the approved head with the commit the executor named and confirmed |
| ServerSafety.OnlyVerifiersMint | proofrail/server.py:303-333 | a role that may mint and is accepted as issuer is the verifier's |
| ServerSafety.MintedHolds | proofrail/server.py:298-361 | a permit the server mints comes from a permitting evaluation, carries its roots and approval and its intent's exact effect, names as issuer the asking principal, a verifier, and is bound to the stored checkpoint |
| ServerSafety.ChecksPassed | proofrail/permit.py:117-202 | a permit that passes an executing thread's checks has the roots that thread read and the counter of the checkpoint it read |
| ServerSafety.ClaimedKeepsInv | proofrail/server.py:398-411 | a committed spend keeps the invariant of lock, checkpoints, store and threads |
| ServerSafety.AdvanceKeepsInv | proofrail/server.py:411-419 | so does the holder of the lock replacing the checkpoint |
| ServerSafety.RunKeepsInv | proofrail/server.py:230-552 | every run of the server's threads keeps the whole invariant |
| ServerHistory.ExecutionsSawAuthorityUnderTheLock | proofrail/server.py:363-434 | behind every execution record there are two moments of the run, with the lock held by the executing thread throughout: at the first the recorded executor, in whose name the permit is claimed, was an executor, operator or administrator and the active policies were those checked, at the second the roles |
| ServerDuties.MintersWereVerifiers | proofrail/server.py:298-346 | over every run each stored permit names as issuer a principal who was a verifier when it was minted |
| ServerDuties.NobodyMintsAndExecutes | proofrail/server.py:298-411 | over every run whoever minted a permit and also executed it was granted another role in between |
| ServerFreshness.NothingChangedSinceEvaluation | proofrail/server.py:230-411 | over every run, under the lock of each execution the tenant has exactly the principals and roles, and the policy the active digest, that the evaluation behind its permit saw |
| ServerRoots.NextCheckpointIsNeverRefused | proofrail/trust.py:74-170 | over every run from a server whose first checkpoint carries digests, the digest and counter checks on the next checkpoint pass |
| ServerTheorems.CheckpointsFormOneChain | proofrail/server.py:384-419 | for every interleaving the stored checkpoints form one linear chain (epoch 1 + k, counter k, predecessor's hash, replay roots of growing registries), and no update is lost |
| ServerTheorems.SupersededPermitIsDead | proofrail/permit.py:190-201 | once the checkpoint a permit is bound to is superseded, no thread spends it in the rest of any run |
| ServerTheorems.EachCheckpointIsSpentOnce | proofrail/server.py:384-419 | over every run of the server the spends carry strictly increasing checkpoints, each the one its permit was bound to, so no stored checkpoint is spent twice |
| ServerTheorems.NoStoredCheckpointAuthorizes | proofrail/permit.py:297-310 | while the registry is ahead of the last checkpoint, no checkpoint the server ever wrote authorizes a trust-bound merge |
| ServerTheorems.FailedCallBlocksSpending | proofrail/server.py:384-419 | if the adapter raises after the claim, or the server dies there, no permit is spent and no checkpoint written until a reconciliation refreshes the checkpoint |
| ServerTheorems.OnlyAQuorumRefreshes | proofrail/server.py:540-552 | that refresh needs a stored reconciliation whose quorum was met, and commits to its observation root and to the registry as it is |
| ServerTheorems.ReconciledOutcomeIsBacked | proofrail/server.py:230-539 | behind every RECONCILED record: a permit claimed by its executor and minted from a permitting evaluation, all of whose evidence belongs to the intent, with that intent's effect, identity and policy roots equal to the authority state at moments when the executing thread held the lock, and at least `threshold` observers who signed merged, that head and the claimed merge commit |
| ServerTheorems.OutcomesFollowTheirOwnVerdicts | proofrail/server.py:505-538 | over every run a reconciliation is confirmed exactly when its own verdict passes the test, so two outcomes of one execution agree exactly when their verdicts agree on it |
| ServerWitness.FailedThenConfirmed | proofrail/server.py:450-538 | at any server with an execution that a quorum would confirm, a reconciliation without attestations fails and a later one is still confirmed |
| ServerWitness.OutcomesAreNotSticky | proofrail/server.py:159-538 | a whole run from a fresh server (intent, evidence, evaluation, permit, execution) in which one execution is first not confirmed and then confirmed |
| Pilot.PilotControlPlane.ExecuteGithubMerge | proofrail/server.py:363-448 | takes the steps of the interleaved machine in order; a refused request changes nothing; one that reaches the claim was made by an executor, operator or administrator; a raising adapter leaves the claim and the old checkpoint, success adds one claim, the next checkpoint and the execution record |
| Pilot.PilotControlPlane.ExecutePermit | proofrail/permit.py:357-431 | the reads, the verification and the transaction in order, then the adapter; the claim stays when the adapter raises |
| Pilot.ExecuteAlone | proofrail/server.py:363-448 | the method's outcome is exactly what the interleaved machine does with one request when nobody is in between |
| Pilot.PilotControlPlane.ReconcileGithubMerge | proofrail/server.py:450-553 | only for a reconciler or administrator: records the quorum's verdict on the subject of the claimed effect, confirms exactly by the RECONCILED test, and refreshes the checkpoint exactly when the quorum was met |
| GitHubAdapter.GitHubMergeAdapter.Execute | integrations/openclaw/github_adapter.py:77-186 | for every behaviour of the provider, the receipt, the pull request and the calls are those of the specification `Attempt`, on a request that names the approved head |
| GitHubAdapter.GitHubMergeAdapter.Observe | integrations/openclaw/github_adapter.py:188-214 | what an observation says is merged is merged, at the head and with the commit it names |
| GitHubAdapter.ValidatesExactly | integrations/openclaw/github_adapter.py:77-88 | an action is accepted exactly when it is complete; the merge request carries the stripped head, the given method or squash, and a title and message that are not empty |
| GitHubAdapter.RequiredTextMeaning | integrations/openclaw/github_adapter.py:308-312 | a required text is refused exactly when it is blank, and is otherwise stripped at both ends |
| GitHubAdapter.PreflightDecides | integrations/openclaw/github_adapter.py:90-132 | the first read alone decides exactly unless it shows the approved head, open and not unmergeable, with the receipt of each refusal |
| GitHubAdapter.ReadsAgainExactly | integrations/openclaw/github_adapter.py:145-179 | after a merge request there is a second read exactly when the answer was lost, agreed to the merge, or had status 409, 422, 502, 503 or 504 |
| GitHubAdapter.DecisiveAnswer | integrations/openclaw/github_adapter.py:180-186 | any other answer ends in a failed receipt with its status, retry-safe exactly for 401, 403 and 404 |
| GitHubAdapter.ReceiptsCarryTheKey | integrations/openclaw/github_adapter.py:288-305 | every receipt is made out to the caller's idempotency key |
| GitHubAdapter.SuccessMeansMergedAtApprovedHead | integrations/openclaw/github_adapter.py:77-286 | a success receipt is confirmed and means the pull request is, and stays, merged at exactly the approved head; nothing else is confirmed |
| GitHubAdapter.AuthorityStateIsSound | proofrail/permit.py:420-426 | RECONCILED means merged at the approved head, RECONCILIATION_FAILED exactly an unknown outcome, and EXECUTION_FAILED beside our own merge only after a decisive error status |
| GitHubAdapter.OperationIdIsTheMergeCommit | integrations/openclaw/github_adapter.py:116-125 | a success receipt's operation id is the provider's merge commit exactly on the reconciliation path or when the preflight read included it |
| GitHubAdapter.PreflightSuccessMayLackItsCommit | integrations/openclaw/github_adapter.py:116-125 | a concrete run with a success receipt and no operation id |
| GitHubAdapter.AtMostOneMergeRequest | integrations/openclaw/github_adapter.py:77-160 | at most one PUT, for the approved head, and only after a read showed exactly that head, unmerged |
| GitHubAdapter.ReadDecides | integrations/openclaw/github_adapter.py:216-286 | after an undecided PUT one read decides: failed exactly for a merge at another head, success exactly at the approved head with a commit, otherwise unknown and not retry-safe |
| GitHubAdapter.LostResponseIsNotAFailure | integrations/openclaw/github_adapter.py:145-159 | a response lost after preflight is reported as failed only if a read showed the merge of another head |
| GitHubAdapter.FailedYetMerged | integrations/openclaw/github_adapter.py:160-186 | a failed receipt stands beside our own applied merge exactly when the provider merged and answered neither agreed success nor 409, 422, 502, 503, 504 |
| GitHubAdapter.FailedYetMergedHappens | integrations/openclaw/github_adapter.py:180-186 | a concrete run: merged, answered 500 |
| GitHubAdapter.ForeignMergeIsNotOurs | evidence/live-github-2026-10-19/README.md:21-25 | when the provider answers 200 for a pull request somebody else merged at another head, the receipt is failed or unknown |
| Policies.PublishRejectsRepeats | proofrail/control_plane.py:103-140 | publishing fails exactly for a document the policy already has, up to its `signature` |
| Policies.VersionsAreOneToK | proofrail/control_plane.py:116-122 | the versions of a policy are exactly 1 to k |
| Policies.RunKeepsTable | proofrail/control_plane.py:103-242 | over every run versions are 1 to k with distinct digests and at most one active row, and no document or version changes |
| Policies.ActiveVersionOnlyRollsBackByQuorum | proofrail/control_plane.py:158-242 | the active version never disappears, and goes down only by a step whose approvals at least `threshold` distinct governors signed for the rollback of exactly that version and digest, although they were checked before the transaction |
| Policies.ControlPlane.PublishPolicy | proofrail/control_plane.py:103-140 | succeeds exactly with the permission, a name and a new document; adds exactly the next version, inactive, or changes nothing, as the interleaved steps do |
| Policies.ControlPlane.SwitchTo | proofrail/control_plane.py:195-242 | exactly the target becomes active; a lower version needs the rollback flag |
| Policies.ControlPlane.ActivatePolicy | proofrail/control_plane.py:142-156 | succeeds exactly with the permission, for a stored version not below the active one, which becomes active, as the interleaved steps do |
| Policies.ControlPlane.ActivatePolicyWithQuorum | proofrail/control_plane.py:158-193 | success implies a met governor quorum on exactly this target, for a rollback if the version goes down; it succeeds whenever every verdict on the approvals is such a quorum |
| PolicyHistory.VersionsWerePublishedWithPermission | proofrail/control_plane.py:103-140 | over every run each version was published by a call whose principal then had the permission |
| PolicyHistory.ActivationsWerePermitted | proofrail/control_plane.py:142-242 | over every run each change of an active version commits a call for exactly that version, made with the permission, or with a governor quorum for its promotion or rollback |
| Bridge.AcceptsExactly | integrations/openclaw/bridge.py:314-354 | a receipt of any adapter is accepted exactly when it has every field, is made out to this key, and meets the conditions of its outcome |
| Bridge.GitHubReceiptsAreAccepted | integrations/openclaw/bridge.py:314-354 | the receipt check accepts every GitHub receipt with its own status, except a success without a merge commit |
| Bridge.AtMostOneCallPerDigest | integrations/openclaw/bridge.py:83-154 | for every interleaving the adapter is called at most once per action digest, every success or failed row rests on a receipt with that outcome for that digest and holds its ledger entry, and the ledger verifies |
| Bridge.RowsMoveForward | integrations/openclaw/bridge.py:186-217 | rows move only from absent to started and from started to one final status |
| Bridge.ExceptionEndsUnknown | integrations/openclaw/bridge.py:113-154 | after an exception from the adapter call onward the row is started or unknown for the rest of the run |
| Bridge.ExceptionIsRecordedAsUnknown | integrations/openclaw/bridge.py:138-154 | if that run ends without being cut off and its note reaches the store, the row is unknown for the rest of every run |
| Bridge.OpenClawProofRailBridge.Run | integrations/openclaw/bridge.py:83-154 | denied and repeated actions change nothing; otherwise one call, and the row ends as the accepted outcome with its ledger entry, unknown or started: exactly what the machine does when nobody is in between |
| Gate.PermitsExactlyWhenAuthorized | proofrail/core.py:99-178 | there is no reason to deny exactly when a declarative condition on action type, all evidence, each claim's last item, approval and reversibility holds |
| Gate.AuthorizedInstantsFormAnInterval | proofrail/core.py:127-160 | for fixed inputs the instants at which an action is permitted form an interval |
| Gate.DedupOrder | proofrail/core.py:170-178 | `dict.fromkeys` keeps each element once, in the order of first occurrence |
| Gate.DedupMembers | proofrail/core.py:170-178 | and loses and invents none |
| Gate.CheckEvidence | proofrail/core.py:121-127 | the loop over the evidence collects the signature reasons and the last authentic item of each claim |
| Gate.CheckClaims | proofrail/core.py:133-157 | the loop over the claims collects their reasons and the accepted ids, and raises exactly for a timestamp that does not parse |
| Gate.Evaluate | proofrail/core.py:99-178 | on what was read: raises exactly for inputs that cannot be evaluated, permits exactly what is authorized, lists the de-duplicated claim ids in order and, when it denies, the de-duplicated reasons in order |
| Gate.AuthorizedMeansPermissible | proofrail/core.py:99-219 | what the gate authorizes on what it read is exactly what the action, evidence, policy and approval documents permit |
| Gate.EvaluableMeansReadable | proofrail/core.py:27-34 | an action can be evaluated exactly when its documents have their fields, a known risk, claims, and readable times on the last sealed evidence of each claim |
| Gate.ReasonsHaveCauses | proofrail/core.py:113-219 | each reason is given exactly when there is its cause |
| Gate.EvaluateAction | proofrail/core.py:99-178 | raises exactly for documents that cannot be read; otherwise permits exactly when the documents satisfy the declarative condition, spelled out field by field with the policy's defaults, and binds the decision to the digest of the action |
| Audit.RowsFollowLedger | proofrail/server.py:699-739 | for any interleaving the ledger is a valid chain numbered 1 to n, and the rows in sequence order are the ledger's entries that have a row |
| Audit.RowsEqualLedgerWhenAllFinish | proofrail/server.py:699-739 | the rows in sequence order are the whole ledger exactly when every call has finished and none lost its row |
| Audit.OnlyEventIdsClash | proofrail/server.py:819-827 | sequence numbers taken under the lock never clash: an insert fails only on an event id already used |
| Audit.AuditTrail.Audit | proofrail/server.py:670-728 | one call is the append and the insert of the interleaved trail |
| Audit.AuditTrail.AuditEvents | proofrail/server.py:730-739 | returns the ledger's entries that have a row, in ledger order |

## Left out

- JSON text, RFC 8785 and `json.dumps` themselves: encodings are functions that can be read back; numbers that do not serialise and Python's equality of `1`, `1.0` and `True` are not modelled.
- Ed25519, SHA-256, HMAC and base64 internals: the `Suite` parameter.
- `verify_ledger` on a file it cannot read is one error, and a line that is JSON but not an object is not modelled.
- SQLite, WAL, file locks, `fsync` and temporary files: a transaction or a file replacement is one step, and an update that commits and then raises is not modelled.
- `strip` on non-ASCII white space, and whitespace inside the owner and repository texts, which only form the request path.
- The HTTP handler, request routing, command line, environment keys, demo and report scripts.
- Tenants that do not exist, and `create_tenant`.
- The migration adapter and the classification of migration outcomes after the call: `Spending` models what is claimed and when the adapter is called.
- Evaluation and minting on the server read policies, identity root and checkpoint in one step each; execution reads policy, identity root and registry in separate steps.
- The server without observation quorum: `Server` models reconciliation through `QuorumObservationAdapter`.
- The audit trail of one tenant: tenants share nothing but the lock.
- Gate: policy values of the wrong type and claim ids that Python cannot hash, for which it raises in passing, are not modelled.
- The evidence dictionaries inside GitHub receipts: `Reason` keeps what decided, and the path of the request is not modelled.
- Several server processes on one database, and revocation racing a dispatched provider call, which `docs/KNOWN_LIMITATIONS.md:44-49` disclaims.
- `SubprocessAdapter` and `GitHubTransport` (a child process and an HTTP client), `integrations/openclaw/database_adapter.py` (statements of SQLite), `proofrail/reproduce.py` (a list of checks it runs), `proofrail/audit_export.py` and `integrations/siem.py` (report formats), `proofrail/envelope.py` (the permit terms in one JSON schema for any action type).
