# Vertex Veil: coordination protocol, public log, verifier and circuits

A requester and several providers commit privately, propose a match, prove it and settle it with a
receipt, over rounds that fall back until one succeeds or a bound is reached. This project models
the runtime that drives the rounds, the guarded round machine, the append-only public log, the
standalone verifier that re-checks a finished log, and the byte layouts that the runtime and the
two circuits commit to.

`dafny verify dfyconfig.toml` checks the whole project.

## How it is built

- `Runs` holds the runtime as functions of machine, log and replay memory. `Runtimes` holds the
  classes: the runtime, its round machine, log and transport, updated in place, each method proved
  against those functions. `Runtimes.Coordinate` ties a whole run to `Runs.Run`.
- A network is either `InProcess`, the first-in first-out bus starting empty, or `Delivered(f)`,
  where any finite sequence of messages may come out of each phase of each round. The second covers
  every transport that stays open, any subset of local agents, and (`Runtimes.Primed`) messages
  already waiting when a run starts.
- `Verifier` checks a log by its own lookups over the vectors, never by the machine's maps.
- `Coupling` is the invariant between machine and log that the run theorems rest on; `Soundness`,
  `Completeness`, `NonInterference`, `ExactRuns`, `Accounting`, `Replicas`, `Conservation`,
  `KeyAgreement`, `Bounds` and `StableKeys` are those theorems. `Outcomes`, `Reports` and `Schedules`
  say what the runtime refuses, what the verifier reports and what a scenario brings about in terms of
  messages, records and events alone, not of the functions that compute them.
- `RustBuilders` and `NoirBuilders` fill buffers in the two ways the two languages do, each proved
  against its own layout function; `Circuits` proves the layouts equal and the circuits sound.

## What is assumed, and where

Nothing is an axiom. Cryptography is a value, `Crypto`, of abstract functions, and a law appears as
a `requires` of the lemmas that need it.

- BLAKE2s (RFC 7693) is a function to 32 bytes. No function from all byte strings to 32 bytes is
  injective, so the exact-run theorems ask only that it does not collide on the honest preimages of
  that run (`NoCollisions`), and circuit soundness only that it does not collide on the two
  preimages compared. Non-interference, coupling, completeness and soundness ask nothing of it.
- Ed25519 (RFC 8032) signing and verification agree on matching keys (`SigningLaw`), and a signature
  is never empty (`SignatureShape`).
- `KeysConsistent`: the topology pins a provider's public key exactly when its agent holds a seed,
  and then they match. It says nothing of the requester's key, which no receipt uses. The
  private-intent loader checks only `PairsMatch`, that a key and a seed that are both present
  belong together, and runtime and verifier choose between Ed25519 and the keyless tag
  independently. Completeness is therefore false without more, both for a key without a seed and for
  a seed without a key (`SampleRuns.KeysMustBeConsistent`), and
  `KeyAgreement.ValidIffWinnerPairAgrees` gives the exact condition on the configuration: the
  provider matched in the first round to settle, if any round does, has both or neither.
- `AgentsFit` and `FullyLocal` are what the private-intent loader checks: matching roles, ids and
  capabilities. `FullyLocal` adds tags of at most 32 bytes and at most four claims, which the
  topology loader does not bound; theorems that do not name it hold whenever the run returns.

`SampleRuns` exhibits a deployment that meets all of these together.

## Where code and comments differ

The model follows the code.

- The builders' comments speak of 152 and 263 bytes (`crates/vertex-veil-core/src/commitments.rs:137`
  and `:173`); the constants and the code give 153 and 264.
- The tampering helper's comment says it flips the top byte; it flips the lowest bit of the first
  byte of the hash field (`crates/vertex-veil-core/src/runtime.rs:1091-1103`).
- The comment in `circuits/provider/src/main.nr:44-45` asks for zero bytes in inactive slots; only
  their lengths are constrained (`Circuits.InactiveBytesAreFree`).

## Model

| member | source | states |
|---|---|---|
| Bytes.HexRoundTrip | crates/vertex-veil-core/src/commitments.rs:107-110 | Decoding an encoding gives back the bytes, so hexes of different digests differ. |
| Bytes.HexRoundTripBack | crates/vertex-veil-core/src/commitments.rs:107-110 | Encoding restores a decoded text if and only if it was in lower case. |
| Bytes.EncodingIsLowerCase | crates/vertex-veil-core/src/commitments.rs:107-110 | Encoding writes lower-case digits, the high one first. |
| Bytes.DecodableIff | crates/vertex-veil-core/src/runtime.rs:1083-1089 | Texts that decode are whole pairs of digits, in either letter case, and no others. |
| Ordering.LeqIsLexicographic | crates/vertex-veil-core/src/keys.rs:55-60 | The big-endian comparison used for stable keys is the byte-by-byte order of node ids. |
| Ordering.SortIds | crates/vertex-veil-core/src/config.rs:278-286 | The sorted list is ordered and a permutation of the input. |
| Ordering.SortedKeys | crates/vertex-veil-core/src/runtime.rs:482-492 | Iterating a key-ordered map visits every key once, in stable-key order. |
| Preimages.RequesterRoundTrip | crates/vertex-veil-core/src/commitments.rs:138-171 | A decoder recovers round, node id, capability, budget and nonce from every requester preimage. |
| Preimages.RequesterRoundTripBack | crates/vertex-veil-core/src/commitments.rs:25-56 | Bytes that decode are the layout of what they decode to: no content has a second encoding. |
| Preimages.ProviderRoundTrip | crates/vertex-veil-core/src/commitments.rs:174-232 | A decoder recovers round, node id, the whole claim list in order, reservation and nonce from every provider preimage. |
| Preimages.ProviderRoundTripBack | crates/vertex-veil-core/src/commitments.rs:25-56 | The same in the other direction: unused slots must be zero and the count within four for bytes to decode. |
| Preimages.RequesterLayoutInjective | crates/vertex-veil-core/src/commitments.rs:138-171 | Equal requester preimages have equal contents. |
| Preimages.ProviderLayoutInjective | crates/vertex-veil-core/src/commitments.rs:174-232 | Equal provider preimages have equal contents. |
| Preimages.RolesNeverCoincide | crates/vertex-veil-core/src/commitments.rs:25-56 | A requester and a provider preimage never coincide; already the first four bytes differ. |
| Preimages.RequesterOffsets | crates/vertex-veil-core/src/commitments.rs:25-56 | Every field of the requester preimage at its literal offset: length prefix, domain string, version, round, id, role byte, tag, amount, nonce. |
| Preimages.ProviderOffsets | crates/vertex-veil-core/src/commitments.rs:25-56 | Every field of the provider preimage at its literal offset, each of the four slots holding its claim or zeros. |
| Preimages.RequesterRefusedFor | crates/vertex-veil-core/src/commitments.rs:143-153 | Which refusal a requester meets: an empty tag, a tag over 32 bytes, none. |
| Preimages.ProviderRefusedFor | crates/vertex-veil-core/src/commitments.rs:179-198 | Which refusal a provider meets: no claims, over four, then the first empty or overlong claim. |
| Preimages.NonceBinds | crates/vertex-veil-core/src/commitments.rs:279-289 | A nonce is for one node, round and salt, unless the hash collides on the two inputs. |
| RustBuilders.BuildRequesterPreimage | crates/vertex-veil-core/src/commitments.rs:138-171 | The buffer filled at offsets is the 153-byte layout, or the refusal says the tag is empty or over 32 bytes. |
| RustBuilders.CheckClaims | crates/vertex-veil-core/src/commitments.rs:188-198 | The loop reports the first claim that is empty or too long for its slot, and passes exactly when there is none. |
| RustBuilders.FillSlots | crates/vertex-veil-core/src/commitments.rs:212-224 | The slot loop leaves each claim with its length in its own slot, zeros in unused slots, and the bytes before them untouched. |
| RustBuilders.BuildProviderPreimage | crates/vertex-veil-core/src/commitments.rs:174-232 | The buffer filled at offsets is the 264-byte layout, with the refusals in the order the code checks them. |
| NoirBuilders.DomainsAgree | circuits/shared/src/lib.nr:9-21 | The byte lists in the circuit spell the domain strings of the runtime. |
| NoirBuilders.WriteU32Be | circuits/shared/src/lib.nr:43-49 | The shifts and masks write the value big-endian and touch nothing else. |
| NoirBuilders.WriteU64Be | circuits/shared/src/lib.nr:31-41 | The same for eight bytes. |
| NoirBuilders.BuildRequesterPreimage | circuits/shared/src/lib.nr:60-107 | Scratch buffer and trim leave exactly domain, round, id, capability, length, budget and nonce. |
| NoirBuilders.WriteSlot | circuits/shared/src/lib.nr:153-165 | A slot past the claim count is zeroed, length included, whatever the inputs hold there. |
| NoirBuilders.BuildProviderPreimage | circuits/shared/src/lib.nr:118-174 | All 264 bytes: header, gated slots, reservation and nonce. |
| Circuits.RequesterInputsFromIntent | crates/vertex-veil-noir/src/requester.rs:86-116 | The padded public inputs, or the refusal of a capability that is too long. |
| Circuits.RequesterParity | crates/vertex-veil-core/src/commitments.rs:138-171 | For every intent the runtime accepts, the circuit builder on the padded inputs yields the same bytes. |
| Circuits.RequesterBytesInjective | circuits/shared/src/lib.nr:60-107 | Equal circuit preimages have equal inputs, padding included. |
| Circuits.RequesterSoundness | circuits/requester/src/main.nr:29-60 | If the circuit accepts against the hash of a runtime preimage, every public input and witness is the committed one and the committed budget meets the threshold; no other round is accepted. |
| Circuits.RequesterCompleteness | circuits/requester/src/main.nr:29-60 | On honest inputs the circuit accepts if and only if the budget meets the threshold. |
| Circuits.PadClaims | crates/vertex-veil-noir/src/provider.rs:95-107 | Slots and lengths fed to the circuit, zero past the claims, or the first claim that is too long. |
| Circuits.ProviderInputsFromIntent | crates/vertex-veil-noir/src/provider.rs:82-124 | The public inputs, or the refusals for too many claims and for a claim too long. |
| Circuits.ProviderParity | crates/vertex-veil-core/src/commitments.rs:174-232 | For every intent the runtime accepts, the circuit builder on the padded inputs yields the same bytes. |
| Circuits.ProviderBytesInjective | circuits/shared/src/lib.nr:118-174 | Equal circuit preimages have equal inputs but for the bytes of inactive slots. |
| Circuits.ProviderSoundness | circuits/provider/src/main.nr:30-75 | If the circuit accepts against the hash of a runtime preimage, round, node, count, active slots and lengths, reservation and nonce are the committed ones, inactive lengths are zero, and the committed reservation is within the threshold. |
| Circuits.ProviderCompleteness | circuits/provider/src/main.nr:30-75 | On honest inputs the circuit accepts if and only if the reservation does not exceed the threshold. |
| Circuits.SlotsAreGated | circuits/shared/src/lib.nr:153-165 | What is hashed of a slot: its length and bytes while active, zeros past the claim count. |
| Circuits.RequesterAcceptsWhat | circuits/requester/src/main.nr:29-60 | Exactly which public inputs a witness satisfies: length 1 to 32, threshold within the budget, and one commitment. |
| Circuits.ProviderAcceptsWhat | circuits/provider/src/main.nr:30-75 | Exactly which public inputs a witness satisfies: count 1 to 4, active lengths 1 to 32, inactive ones zero, threshold, and one commitment. |
| Circuits.RequesterBridgeRefusesWhat | crates/vertex-veil-noir/src/requester.rs:86-116 | What the bridge refuses a requester for, and what it passes on. |
| Circuits.ProviderBridgeRefusesWhat | crates/vertex-veil-noir/src/provider.rs:82-124 | What the bridge refuses a provider for: the number of claims, the first overlong claim, then empty ones. |
| Circuits.RequesterCircuitNeedsRequester | circuits/requester/src/main.nr:29-60 | The requester circuit accepts against the hash of a provider preimage only if the hash collides on strings of 264 and 153 bytes. |
| Circuits.ProviderCircuitNeedsProvider | circuits/provider/src/main.nr:30-75 | And the provider circuit against that of a requester preimage only if it collides on 153 and 264 bytes. |
| Circuits.InactiveBytesAreFree | circuits/provider/src/main.nr:44-55 | What an inactive slot holds never changes the verdict, although the comment beside the check asks for zero bytes there. |
| Matching.DeriveCandidate | crates/vertex-veil-core/src/candidate.rs:38-84 | The loop with its sort computes the candidate function, errors included. |
| Matching.DeriveIsLeastMatch | crates/vertex-veil-core/src/candidate.rs:38-84 | A candidate exists if and only if some provider matches, and then it is the byte-least matching provider. |
| Matching.DeriveIgnoresOrder | crates/vertex-veil-core/src/candidate.rs:38-84 | The candidate depends on the set of commitments, not on their order or repetition. |
| Matching.DeriveErrsOn | crates/vertex-veil-core/src/candidate.rs:38-60 | Which errors candidate formation reports, and exactly when. |
| Proposer.ForRoundIs | crates/vertex-veil-core/src/proposer.rs:32-51 | An empty ring, the first repeated entry, or else the entry at the remainder of the round. |
| Proposer.ProposerForRound | crates/vertex-veil-core/src/proposer.rs:32-51 | The duplicate scan and the index arithmetic compute the proposer function, errors included. |
| Proposer.RingShape | crates/vertex-veil-core/src/config.rs:278-286 | The ring of a valid topology is sorted and lists each provider exactly once. |
| Proposer.ProposerExists | crates/vertex-veil-core/src/runtime.rs:1141-1152 | In a valid topology no round lacks a proposer, and it is a configured provider. |
| Proposer.ProposerIgnoresListingOrder | crates/vertex-veil-core/src/config.rs:278-286 | Permuting the configured nodes names the same proposer in every round. |
| Proposer.RotationIsFair | crates/vertex-veil-core/src/proposer.rs:32-51 | Over any n consecutive rounds, n the provider count, each provider proposes exactly once. |
| TopologyLoader.NormalizeNode | crates/vertex-veil-core/src/config.rs:183-220 | A node is accepted exactly when its tags are known and its role has the fields it needs and none of the other role; otherwise the refusal is that of the first check that fails. |
| TopologyLoader.FromRaw | crates/vertex-veil-core/src/config.rs:157-260 | The loop accepts exactly the legitimate inputs and keeps the listing order; otherwise it reports the first refusal: version, empty list, nodes in order, role counts. |
| TopologyLoader.NodeRefusedFor | crates/vertex-veil-core/src/config.rs:183-220 | For each refusal, exactly the nodes it is for. |
| TopologyLoader.FirstBadNodeIsReported | crates/vertex-veil-core/src/config.rs:180-250 | The first node that repeats an id or does not fit is the one reported, the repetition before the node's own fault. |
| TopologyLoader.RoleCountsAreReported | crates/vertex-veil-core/src/config.rs:157-260 | Version and empty list come first; with every node good, the number of requesters is reported, then the lack of providers. |
| TopologyLoader.LoadedIsValid | crates/vertex-veil-core/src/config.rs:157-260 | Whatever is loaded satisfies the topology predicate the run theorems assume. |
| TopologyLoader.ValidIsLoadable | crates/vertex-veil-core/src/config.rs:157-260 | And every topology satisfying it is loaded from some input, so the predicate assumes nothing the loader does not give. |
| RoundMachines.RoundMachine.constructor | crates/vertex-veil-core/src/round_machine.rs:94-103 | A machine starts in the given round with nothing accepted and an empty history. |
| RoundMachines.RoundMachine.CurrentProposer | crates/vertex-veil-core/src/round_machine.rs:131-134 | The proposer of the current round, or its error. |
| RoundMachines.RoundMachine.Commit | crates/vertex-veil-core/src/round_machine.rs:138-207 | Acceptance or the first failing guard; a refusal leaves every field as it was. |
| RoundMachines.RoundMachine.Propose | crates/vertex-veil-core/src/round_machine.rs:212-267 | The same for proposals: round, proposer, both commitments, annotation and single acceptance. |
| RoundMachines.RoundMachine.Advance | crates/vertex-veil-core/src/round_machine.rs:272-284 | Moves strictly forward, archives the round and keeps the replay history. |
| RoundMachines.AdvanceKeeps | crates/vertex-veil-core/src/round_machine.rs:272-284 | Advancing fails exactly when it would not move forward; else it archives round, commitments and proposal at the end of the past and forgets no hex. |
| RoundMachines.MismatchNames | crates/vertex-veil-core/src/round_machine.rs:138-267 | A round mismatch names the active round and the round claimed instead. |
| CoordinationLogs.AppendKeepsIndex | crates/vertex-veil-core/src/artifacts.rs:168-177 | Appending keeps the private key index equal to the keys of the public vector, and refuses exactly the duplicates of a logged key. |
| CoordinationLogs.NewLogIsOpen | crates/vertex-veil-core/src/artifacts.rs:150-164 | A new log is open, indexed and without a record. |
| CoordinationLogs.CoordinationLog.constructor | crates/vertex-veil-core/src/artifacts.rs:150-164 | An empty log of the given run. |
| CoordinationLogs.CoordinationLog.AddCommitment | crates/vertex-veil-core/src/artifacts.rs:168-177 | Appends to the vector and to the index, or changes nothing. |
| CoordinationLogs.CoordinationLog.AddProposal | crates/vertex-veil-core/src/artifacts.rs:179-181 | Appends the proposal; all else unchanged. |
| CoordinationLogs.CoordinationLog.AddProof | crates/vertex-veil-core/src/artifacts.rs:183-185 | Appends the proof; all else unchanged. |
| CoordinationLogs.CoordinationLog.AddReceipt | crates/vertex-veil-core/src/artifacts.rs:187-189 | Appends the receipt; all else unchanged. |
| CoordinationLogs.CoordinationLog.AddRejection | crates/vertex-veil-core/src/artifacts.rs:191-193 | Appends the rejection; all else unchanged. |
| CoordinationLogs.CoordinationLog.SetFinalRound | crates/vertex-veil-core/src/artifacts.rs:195-198 | Sets the final round and the verdict; all else unchanged. |
| CoordinationLogs.CoordinationLog.SetAbortReason | crates/vertex-veil-core/src/artifacts.rs:202-204 | Sets the abort reason; all else unchanged. |
| CoordinationLogs.CoordinationLog.Reindex | crates/vertex-veil-core/src/artifacts.rs:208-219 | Succeeds exactly when no (node, round) repeats, and then the index matches the vector; the public record is untouched either way. |
| Artifacts.ParseAfterLayout | crates/vertex-veil-core/src/runtime.rs:1156-1172 | Parsing the 73-byte layout gives back round, node, digest and role byte. |
| Artifacts.LayoutAfterParse | crates/vertex-veil-core/src/runtime.rs:1045-1059 | Bytes that parse are the layout of the parse, so layout and parser are mutual inverses. |
| Artifacts.ExtractAgreesWithParse | crates/vertex-veil-core/src/runtime.rs:1083-1089 | The hash the runtime extracts from a parsing proof is the one the verifier parses. |
| Artifacts.FillPublicInputs | crates/vertex-veil-core/src/runtime.rs:1045-1059 | The buffer filled at offsets is the 73-byte layout, a short digest padded with zeros. |
| Artifacts.BuildProofArtifact | crates/vertex-veil-core/src/runtime.rs:1045-1081 | The whole artifact, from the hex of the commitment to the proof marker. |
| Artifacts.ArtifactBytes | crates/vertex-veil-core/src/runtime.rs:1045-1081 | What an artifact decodes to, byte by byte: round, node, the committed digest, 0 for a requester and 1 for a provider; marker 1 and the hash of the attestation domain and all 73 bytes. |
| Artifacts.AttestationBinds | crates/vertex-veil-core/src/runtime.rs:1060-1081 | Artifacts with the same attestation are the same artifact, unless the hash collides on the two. |
| Artifacts.TamperingFlipsOneBit | crates/vertex-veil-core/src/runtime.rs:1091-1103 | Tampering flips the lowest bit of byte 40 and touches nothing else; shorter texts are left alone. |
| Artifacts.TamperingIsVisible | crates/vertex-veil-core/src/runtime.rs:1091-1103 | An untouched artifact embeds its commitment, a tampered one always embeds another hash. |
| Artifacts.BuildReceiptMessage | crates/vertex-veil-core/src/signing.rs:134-145 | The message built piece by piece is the receipt layout. |
| Artifacts.ReceiptMessageInjective | crates/vertex-veil-core/src/signing.rs:134-145 | Equal receipt messages name the same provider, round and capability. |
| Artifacts.ReceiptOffsets | crates/vertex-veil-core/src/signing.rs:134-191 | Domain, provider, round and capability at their literal offsets, in the signed message and in the input of the keyless tag. |
| Artifacts.KeylessTagBinds | crates/vertex-veil-core/src/signing.rs:181-191 | A keyless tag is for one provider, round and capability, unless the hash collides on the two inputs. |
| Artifacts.KeylessAcceptanceBinds | crates/vertex-veil-core/src/verifier.rs:281-314 | A keyless signature accepted for one receipt is accepted for no other, unless the hash collides on the two. |
| Artifacts.AcceptsWhat | crates/vertex-veil-core/src/verifier.rs:281-314 | Exactly what is accepted: 64 bytes the key verifies on the signed message, or, with no key, the keyless tag. |
| Completeness.ReceiptIsSignedBy | crates/vertex-veil-core/src/runtime.rs:845-893 | The receipt carries the signature with the seed of the provider intent, or the keyless tag when there is none. |
| Reports.KeyIsPinned | crates/vertex-veil-core/src/verifier.rs:293-310 | The key a receipt is checked with is the one pinned where the node is first listed. |
| Artifacts.ConsistentKeysVerify | crates/vertex-veil-core/src/verifier.rs:281-314 | A receipt signed with a seed verifies under its public key, and an unsigned one under no key. |
| Runtimes.Transport.Broadcast | crates/vertex-veil-core/src/runtime.rs:105-126 | Appends at the back of the queue. |
| Runtimes.Transport.Flush | crates/vertex-veil-core/src/runtime.rs:95-101 | What the network delivers for this phase replaces what was sent; nothing changes in process. |
| Runtimes.Transport.NextOrdered | crates/vertex-veil-core/src/runtime.rs:105-126 | Takes the front of the queue. |
| Runtimes.CoordinationRuntime.HandleCommitment | crates/vertex-veil-core/src/runtime.rs:577-629 | One drained message updates machine and log as the pure step says. |
| Runtimes.CoordinationRuntime.HandleProposal | crates/vertex-veil-core/src/runtime.rs:709-744 | The same in the propose phase. |
| Runtimes.CoordinationRuntime.HandleProof | crates/vertex-veil-core/src/runtime.rs:785-843 | The same in the prove phase. |
| Runtimes.CoordinationRuntime.HandleReceipt | crates/vertex-veil-core/src/runtime.rs:895-937 | The same in the receipt phase. |
| Runtimes.CoordinationRuntime.DrainCommitments | crates/vertex-veil-core/src/runtime.rs:577-629 | Handles every queued message in order and leaves the queue empty. |
| Runtimes.CoordinationRuntime.DrainProposal | crates/vertex-veil-core/src/runtime.rs:709-744 | The same in the propose phase. |
| Runtimes.CoordinationRuntime.DrainProofs | crates/vertex-veil-core/src/runtime.rs:785-843 | The same in the prove phase. |
| Runtimes.CoordinationRuntime.DrainReceipts | crates/vertex-veil-core/src/runtime.rs:895-937 | The same in the receipt phase. |
| Runtimes.CoordinationRuntime.BroadcastNode | crates/vertex-veil-core/src/runtime.rs:490-573 | Replays first, then silence or the honest commitment and its doubles; the replay memory gains the honest one. |
| Runtimes.CoordinationRuntime.BroadcastCommitments | crates/vertex-veil-core/src/runtime.rs:482-575 | Every agent has its turn in stable-key order, or the first failure stops the phase. |
| Runtimes.CoordinationRuntime.BroadcastProposal | crates/vertex-veil-core/src/runtime.rs:631-707 | The proposal sent, or the rejection logged and the early fallback. |
| Runtimes.CoordinationRuntime.BroadcastProofs | crates/vertex-veil-core/src/runtime.rs:746-783 | The participants held here send their proofs, requester first, tampered as scheduled. |
| Runtimes.CoordinationRuntime.BroadcastReceipt | crates/vertex-veil-core/src/runtime.rs:845-893 | The provider held here sends its signed receipt. |
| Runtimes.CoordinationRuntime.ProveAndSettle | crates/vertex-veil-core/src/runtime.rs:440-480 | The end of a round refines the pure step and empties the queue. |
| Runtimes.CoordinationRuntime.ProposeAndOn | crates/vertex-veil-core/src/runtime.rs:425-480 | The round from the propose phase on refines the pure step. |
| Runtimes.CoordinationRuntime.RunOneRound | crates/vertex-veil-core/src/runtime.rs:408-480 | A whole round refines the pure step, messages already waiting being drained with its commitments. |
| Runtimes.CoordinationRuntime.AdvanceFallback | crates/vertex-veil-core/src/round_machine.rs:287-290 | Advances exactly one round. |
| Runtimes.CoordinationRuntime.Run | crates/vertex-veil-core/src/runtime.rs:323-356 | The loop computes the run function of configuration and network, messages already waiting being drained with the first commitments. |
| Runtimes.CoordinationRuntime.RunWithTransport | crates/vertex-veil-core/src/runtime.rs:361-398 | The second copy of the loop has the same outcome and hands back an emptied transport. |
| Runtimes.CheckConfig | crates/vertex-veil-core/src/runtime.rs:245-277 | What the constructor refuses, in its order. |
| Runtimes.Coordinate | crates/vertex-veil-core/src/runtime.rs:238-356 | Constructing a runtime and running it is the run function all theorems below speak of. |
| Verifier.StandaloneVerifier.CheckCommitments | crates/vertex-veil-core/src/verifier.rs:76-115 | The faults of every commitment in log order, duplicates by the set of keys seen before. |
| Verifier.StandaloneVerifier.CheckProposals | crates/vertex-veil-core/src/verifier.rs:117-169 | The faults of every proposal in log order. |
| Verifier.StandaloneVerifier.CheckProofs | crates/vertex-veil-core/src/verifier.rs:171-239 | The faults of every proof in log order. |
| Verifier.StandaloneVerifier.CheckFinalRound | crates/vertex-veil-core/src/verifier.rs:241-336 | The faults of the final round, and whether verification returns early. |
| Verifier.StandaloneVerifier.CheckRejections | crates/vertex-veil-core/src/verifier.rs:338-351 | The faults of every rejection. |
| Verifier.StandaloneVerifier.VerifyLog | crates/vertex-veil-core/src/verifier.rs:65-359 | The report carries all reasons in order and is valid exactly when there are none. |
| Verifier.ValidIffWellFormed | crates/vertex-veil-core/src/verifier.rs:65-359 | A log is valid if and only if it meets a declarative predicate with no lookups and no early returns; it fixes every public-input byte of every proof from its commitment. |
| Reports.ReportedIffDeserved | crates/vertex-veil-core/src/verifier.rs:65-359 | For every log and each of the 31 reasons: it is in the report if and only if a condition on the log's records alone holds, stated without lookups or early returns. |
| Reports.MissingRequesterProofReported | crates/vertex-veil-core/src/verifier.rs:315-326 | The missing requester proof is reported exactly when the final match has its receipt and no proof by the requester. |
| Reports.MissingProviderProofReported | crates/vertex-veil-core/src/verifier.rs:315-326 | And the missing provider proof exactly when there is none by the provider. |
| Reports.SectionsInOrder | crates/vertex-veil-core/src/verifier.rs:65-359 | The report goes schema, commitments, proposals, proofs, final round, rejections. |
| Reports.CommitmentInOrder | crates/vertex-veil-core/src/verifier.rs:76-115 | The faults of one commitment come each at most once and in a fixed order. |
| Reports.CommitmentFaultsAppend | crates/vertex-veil-core/src/verifier.rs:76-115 | Logging one more commitment only adds its own faults at the end. |
| Reports.ProposalInOrder | crates/vertex-veil-core/src/verifier.rs:117-169 | The faults of one proposal come each at most once and in a fixed order. |
| Reports.ProofInOrder | crates/vertex-veil-core/src/verifier.rs:171-239 | The same for the faults of one proof. |
| Reports.FinalInOrder | crates/vertex-veil-core/src/verifier.rs:241-336 | The same for the faults of the final round. |
| Reports.GatherSplits | crates/vertex-veil-core/src/verifier.rs:117-239 | Records are reported one after another in log order. |
| Outcomes.RefusalIsAsDue | crates/vertex-veil-core/src/runtime.rs:577-937 | A drained message that some code applies to, read off the public log alone, leaves exactly one rejection with that code, its origin and its kind, and nothing else. |
| Outcomes.AcceptedUnlessRefused | crates/vertex-veil-core/src/runtime.rs:577-937 | A drained message is appended, whole and alone, if and only if no code applies to it. |
| Coupling.LogDuplicateUnreachable | crates/vertex-veil-core/src/runtime.rs:602-618 | What the machine accepts the log never refuses. |
| Coupling.TakeKeepsCoupling | crates/vertex-veil-core/src/runtime.rs:577-937 | Any message in any phase keeps the invariant: the machine holds the active round of the log, its history is the set of logged hexes, keys and hexes are unique, proposals and proofs rest on logged commitments, and the archive holds every closed round as logged. |
| Coupling.RunCouples | crates/vertex-veil-core/src/runtime.rs:323-480 | The invariant holds at the end of every run, over any transport, any local agents and any scenario. |
| Soundness.OnlyShapeAndReceiptLeftOpen | crates/vertex-veil-core/src/verifier.rs:76-351 | Over any delivered stream, only proof-shape reasons and the two receipt reasons can be raised; every other reason is impossible. |
| Soundness.ValidIffShapedAndSettled | crates/vertex-veil-core/src/verifier.rs:65-359 | And the log is valid if and only if its proofs are well shaped and, if finalized, its receipt settles. |
| Completeness.ValidIffFinalPairAgrees | crates/vertex-veil-core/src/runtime.rs:861-881 | For any hash: an in-process log is valid if and only if the run aborted or the provider it settled with has both key and seed, or neither. |
| Completeness.AcceptedIffPaired | crates/vertex-veil-core/src/verifier.rs:281-314 | The verifier accepts what an agent signs if and only if key and seed are present together: a 64-byte signature and a 32-byte tag never pass for each other. |
| Completeness.FinalProviderProvides | crates/vertex-veil-core/src/round_machine.rs:212-267 | Over any transport, the node a finalized run settles with is configured as a provider. |
| Completeness.EveryInProcessLogIsValid | crates/vertex-veil-core/src/verifier.rs:65-359 | When each local provider has a matching key and seed, or neither, every in-process log is valid with no reasons, finalized or aborted, whatever the scenario injects and whatever key the requester has. |
| KeyAgreement.ValidIffWinnerPairAgrees | crates/vertex-veil-core/src/runtime.rs:861-881 | A condition on the configuration alone: an in-process log is valid if and only if, should some round below the bound settle, the provider matched in the first such round has a pinned key exactly when its agent has a seed. |
| CommitPhases.CommitRoundIs | crates/vertex-veil-core/src/runtime.rs:482-629 | The in-process commit phase in closed form for any hash: doubles and replays only add rejections, and it fails only if a commitment cannot be built. |
| NonInterference.ScheduleDecides | crates/vertex-veil-core/src/adversarial.rs:150-173 | Runs whose scenarios drop and tamper alike differ in rejections only, or fail alike. |
| NonInterference.RefusedAttacksDoNotInterfere | crates/vertex-veil-core/src/runtime.rs:482-629 | Deleting every double commit and replay leaves all accepted entries, the final round, the verdict and the report of any verifier unchanged; no hash assumption. |
| HonestCommitments.HonestPreimagesDiffer | crates/vertex-veil-core/src/runtime.rs:939-1001 | Preimages of different (node, round) pairs differ whatever the nonces and private amounts. |
| HonestCommitments.BuildIsHash | crates/vertex-veil-core/src/runtime.rs:939-1001 | A well-armed agent always commits, to the hash of its preimage. |
| HonestCommitments.HonestHexesDiffer | crates/vertex-veil-core/src/commitments.rs:256-274 | So honest hexes differ unless the hash collides on this very run. |
| ExactCommits.CommitRoundExact | crates/vertex-veil-core/src/round_machine.rs:184-206 | Every live node is accepted, none is taken for a replay, and the rejections are exactly those scheduled. |
| ExactRounds.WinnerIsDerived | crates/vertex-veil-core/src/candidate.rs:38-84 | The winner read off topology and scenario alone is the candidate the runtime derives. |
| ExactRounds.RunRoundExact | crates/vertex-veil-core/src/runtime.rs:408-480 | A round appends exactly the entries that topology and scenario determine, in order, and finalizes exactly when it settles. |
| ExactRuns.ConfigAccepted | crates/vertex-veil-core/src/runtime.rs:245-277 | The constructor refuses no fully local configuration. |
| ExactRuns.RunIsExact | crates/vertex-veil-core/src/runtime.rs:323-356 | A fully local run never fails; its log is the entries of its rounds in order, and it ends in the first round that settles. |
| Accounting.FinalizesInFirstSettlingRound | crates/vertex-veil-core/src/runtime.rs:328-350 | It finalizes at r if and only if r is the least round below the bound where the requester and some capable provider are live and neither the requester nor the least such provider is scheduled to tamper; it aborts if and only if there is none. |
| Accounting.EveryLiveNodeCommits | crates/vertex-veil-core/src/round_machine.rs:138-207 | The logged commitments are exactly those of the live nodes of the executed rounds. |
| Accounting.RejectionsAreAccounted | crates/vertex-veil-core/src/runtime.rs:482-629 | The multiplicity of every possible rejection record is the number the scenario schedules: drops, doubles, replays that land, tampered participants, missing requester, no feasible provider. |
| Schedules.CommitsUntilDropped | crates/vertex-veil-core/src/adversarial.rs:165-173 | A local node has a logged commitment for an executed round if and only if every scheduled drop of it is after that round or a later one. |
| Schedules.SettlesIffScheduled | crates/vertex-veil-core/src/adversarial.rs:150-173 | A round settles if and only if the requester and the least provider that claims the tag and is not silent have no spoilt proof, said of the events themselves. |
| Schedules.FinalizesAsScheduled | crates/vertex-veil-core/src/runtime.rs:328-350 | The run finalizes in the first such round below its bound, and aborts if and only if there is none. |
| Schedules.RejectionsAsScheduled | crates/vertex-veil-core/src/runtime.rs:482-843 | The multiplicity of every possible rejection, counted off the events themselves. |
| Soundness.PublicDecides | crates/vertex-veil-core/src/verifier.rs:338-351 | Of logs the runtime wrote, the report depends on the public record alone and never on the rejections. |
| Replicas.AcceptableMeansDerivable | crates/vertex-veil-core/src/candidate.rs:38-84 | Any proposal the machine would accept implies a candidate can be formed. |
| Replicas.EarlyFallback | crates/vertex-veil-core/src/runtime.rs:631-707 | A process falls back early if and only if it speaks for the proposer and no candidate exists. |
| Replicas.ReplicasAgree | crates/vertex-veil-core/src/runtime.rs:408-480 | Processes with different agents and scenarios, handed the same segments, log the same commitments, proposals, proofs and receipts end in the same round with the same verdict, and get the same report from any verifier. |
| Conservation.TakeDisposes | crates/vertex-veil-core/src/runtime.rs:577-937 | Each delivered message adds exactly one accepted entry or exactly one rejection. |
| Conservation.RunConserves | crates/vertex-veil-core/src/runtime.rs:323-480 | Over a run, the entries of the log number the messages delivered plus the rejections raised locally, and every accepted entry is one that was delivered. |
| Bounds.RunIsBounded | crates/vertex-veil-core/src/shared_types.rs:32-34 | After k fallbacks the active round is k; at most the bound of rounds run; receipts exist only if finalized and all carry the final round. |
| Bounds.RunArchives | crates/vertex-veil-core/src/round_machine.rs:272-300 | Over any transport the machine's past holds every round it left under its index, with exactly the logged commitments of that round and the logged proposal, if there is one. |
| Bounds.RunCloses | crates/vertex-veil-core/src/artifacts.rs:195-204 | The log keeps its run id, carries the verdict and final round of the outcome, and an abort reason exactly when it aborted. |
| Bounds.ConfigRefusedFor | crates/vertex-veil-core/src/runtime.rs:245-277 | Exactly when the constructor refuses, and with what: roles, then the stray agent with the least key, then nobody to speak for. |
| Bounds.CommitmentBuiltFrom | crates/vertex-veil-core/src/runtime.rs:939-1001 | What an agent commits to, or why it cannot: no agent, no intent of its role, or a refused preimage. |
| Bounds.RunFailsOnlyToCommit | crates/vertex-veil-core/src/runtime.rs:939-1001 | Over a transport that stays open, a run of fit agents fails only when some agent cannot build a commitment in some round: no panic, overflow or proposer error is reached. |
| StableKeys.UnreachableBranches | crates/vertex-veil-core/src/runtime.rs:641-700 | No run over any transport raises the log-duplicate, proposer-error, backward-transition or candidate-error codes, nor a missing requester in the propose phase. |
| StableKeys.EveryProposalPicksLeast | crates/vertex-veil-core/src/candidate.rs:38-84 | Every proposal an in-process run logs names the sole requester and the byte-least feasible provider among the committed ones. |
| SampleRuns.AssumptionsAreConsistent | crates/vertex-veil-core/src/runtime.rs:939-1001 | One deployment, its requester keyed as well, meets every assumption of the run theorems for any bound and any scenario, so none of them is vacuous. |
| SampleRuns.EveryEndingHappens | crates/vertex-veil-core/src/runtime.rs:328-350 | A run can finalize in any round below any bound, and abort at any bound. |
| SampleRuns.KeysMustBeConsistent | crates/vertex-veil-core/src/runtime.rs:861-881 | With a key and no seed, or a seed and no key, every finalized log of this deployment is invalid; with both or neither every log is valid. |

## Left out

- The command line, process orchestration, bundles, artifact files, run status and parity fixtures: plumbing.
- The networked transport's threads and consensus engine: only their effect is kept, as arbitrary delivered segments.
- Runtimes.Transport.Broadcast: never fails; a transport that reports itself closed would only end the run with its error.
- Completeness and the exact-run theorems speak of a bus that starts empty; with messages already waiting a run counts as `Delivered`.
- Bounds.RunFailsOnlyToCommit: leaves out the error of a transport that closes during a run.
- TopologyLoader.FromRaw: starts from parsed values; TOML, JSON, path checks, tag spelling and key parsing are not modelled.
- BLAKE2s, Ed25519 and the proof backend: abstract functions, see above.
- The order in which witness values are pushed for the proof backend: a list without a property of its own.
- Observers, error texts and the rendering of reasons: reasons and rejection codes are datatypes.
- The in-place sorts of standard collections: modelled by `Ordering.SortIds` and `Ordering.SortedKeys`.
- The set of scheduled tampered proofs computed before a run: looked up in the scenario instead.
- Panics: a run that would panic ends in `Panicked`; `Bounds.RunFailsOnlyToCommit` shows fit agents never reach one.
- Machine word sizes other than 64 bits: lengths and indices are taken to fit.
- Redaction of secrets in debug output: no property of the protocol.
