# Kitties and proof-of-existence pallets, modelled in Dafny

This project models two pallets (runtime modules) of a Substrate node template.
Both are sequential state machines over on-chain storage. Each call checks its guards in order, returns a typed error at the first one that fails, and otherwise writes storage.

- **Kitties** (`kitties.dfy`, `kitty_dna.dfy`). Collectible "kitties" have a `u32` index and a 16-byte genome.
  - Storage has four items: `KittiesCount` (optional `u32`), `Kitties` (index → genome), `Owner` (index → account) and `PriceOf` (index → balance).
  - The calls are `create`, `transfer`, `breed`, `set_kitty_price` and `buy`. `buy` is an empty stub.
  - `breed` builds the child genome byte by byte: `(sel & dna1) | (!sel & dna2)`.
- **Proof of existence** (`poe.dfy`). One map, `Proofs`, sends a claim (a byte string) to its claimant and the block it was claimed in.
  - The calls are `create_claim`, `revoke_claim` and `transfer_claim`.

`dispatch.dfy` holds the shared result types: `Option`, `DispatchResult` (`Ok` or a typed error) and `Step` (the storage after a call, paired with its result).

Each pallet is modelled twice:
- **A class `Pallet`.** It has one `map` field per storage item, and one method per call that updates the fields in place. Each method's `ensures` ties the new storage and the result to a pure specification function applied to the old storage.
- **Pure functions `…Step`.** Each states, over a storage value, the error order, the failure cases and exactly what a successful call writes.

The lemmas are stated about these functions. They cover the storage invariant of the kitties pallet (`Storage.Valid`), the genome rule, and the round trips of the proof-of-existence pallet.

External inputs are method parameters:
- the signed caller (`ensure_signed`);
- the currency reserve's outcome (`reserved: bool`);
- the 16-byte random genome or selector (`random_value`);
- the current block number.

Accounts are a type parameter `A`. Balances and block numbers are `nat`. The `u32` kitty index is the subset type `KittyIndex` (0 to `0xFFFF_FFFF`), so the verifier proves that `id + 1` cannot overflow once the `u32::MAX` guard has passed.

Behaviour kept as written in the code:
- `create` takes id 0 when the count is unset; `breed` takes id 1. `BreedNeverUsesDefaultId` shows that `breed`'s default is unreachable from any valid state.
- `breed` takes no reserve.
- `transfer` neither moves a reserve nor clears a listed price. A design description of the system says that a transfer clears the listing and swaps the reserve. The code does neither, and the model follows the code.
- `buy` accepts every call and changes nothing. The design's `buy` checks (`KittyNotForSale`, `AlreadyOwned`, `BalanceNotEnough`) do not exist in the code.

## Model

| member | source | states |
|---|---|---|
| KittyDna.Gene | pallets/kitties/src/lib.rs:177 | each bit of a child byte equals the first parent's bit where the selector bit is set, and the second parent's bit where it is clear |
| KittyDna.Mix | pallets/kitties/src/lib.rs:174-178 | the 16-byte child genome: for every byte and every bit, a set selector bit takes the bit from parent 1 and a clear one from parent 2 |
| KittyDna.ChildDna | pallets/kitties/src/lib.rs:174-178 | the `for` loop over a zeroed 16-byte buffer produces exactly `Mix(selector, dna1, dna2)` |
| KittyDna.MixSameParents | pallets/kitties/src/lib.rs:177 | two parents with the same genome produce that genome, whatever the selector |
| KittyDna.MixFullSelector | pallets/kitties/src/lib.rs:177 | an all-ones selector copies parent 1 |
| KittyDna.MixEmptySelector | pallets/kitties/src/lib.rs:177 | an all-zeros selector copies parent 2 |
| KittyDna.MixComplementSelector | pallets/kitties/src/lib.rs:177 | complementing the selector swaps the two parents |
| Kitties.Genesis | pallets/kitties/src/lib.rs:63-84 | empty storage with an unset count satisfies the storage invariant |
| Kitties.CreateStep | pallets/kitties/src/lib.rs:102-130 | a refused reserve gives `ReserveFailed` with storage unchanged; otherwise a count of `u32::MAX` gives `KittiesCountOverflow` with storage unchanged; success happens exactly when neither applies, and then id = stored count (0 if unset), the genome and owner are stored at id, the count becomes id + 1 and nothing else changes; the invariant is kept |
| Kitties.TransferStep | pallets/kitties/src/lib.rs:133-146 | fails with `NotKittyOwner` and changes nothing unless the caller is the recorded owner (an id with no owner always fails); on success only `Owner[id]` changes, to the new owner; `Kitties`, the count and `PriceOf` stay as they were; the invariant is kept |
| Kitties.BreedStep | pallets/kitties/src/lib.rs:149-189 | errors in order: `SameParentIndex` when the ids are equal (whatever exists or is owned), then `InvalidKittyIndex`, then `NotKittyOwner`, then `KittiesCountOverflow`, each leaving storage unchanged; success happens exactly when all guards pass, and then the child `Mix(selector, dna1, dna2)` is stored at id = count (1 if unset), owned by the caller, with the count at id + 1; the invariant is kept |
| Kitties.SetKittyPriceStep | pallets/kitties/src/lib.rs:199-211 | `NotKittyOwner` is checked before `InvalidKittyPrice` (zero price); success happens exactly when the caller owns the kitty and the price is non-zero, and then only `PriceOf[id]` changes, to the price; the invariant is kept |
| Kitties.ApplyPreservesValid | pallets/kitties/src/lib.rs:99-212 | every call, successful or not, keeps the storage invariant: the kitties are exactly the ids below the count, owner keys equal kitty keys, and prices exist only for owned kitties |
| Kitties.ReachableIsValid | pallets/kitties/src/lib.rs:99-212 | every storage state reached from a valid state by any sequence of calls is valid |
| Kitties.BornIdIsFresh | pallets/kitties/src/lib.rs:111-125 | in a valid state the id taken from the count is greater than every existing id, so a new kitty overwrites no genome or owner |
| Kitties.BreedKeepsParents | pallets/kitties/src/lib.rs:162-184 | a successful breed leaves both parents' genomes as they were and both still owned by the caller; the child id is above every existing id |
| Kitties.BreedNeverUsesDefaultId | pallets/kitties/src/lib.rs:162-168 | in a valid state with the count unset, breed always fails, so its default child id of 1 is never used |
| Kitties.ApplyKeepsKitties | pallets/kitties/src/lib.rs:121-123 | from a valid state no call changes a stored genome or removes an owner |
| Kitties.KittiesArePermanent | pallets/kitties/src/lib.rs:180-182 | over any sequence of calls from a valid state, every stored genome stays the same and every kitty keeps an owner |
| Kitties.Pallet.constructor | pallets/kitties/src/lib.rs:63-84 | the four storage items start empty, the count unset |
| Kitties.Pallet.Birth | pallets/kitties/src/lib.rs:121-125 | writes the genome, the owner and count := id + 1 |
| Kitties.Pallet.Create | pallets/kitties/src/lib.rs:102-130 | the new storage and the result are those of `CreateStep` on the old storage; the invariant is kept |
| Kitties.Pallet.Transfer | pallets/kitties/src/lib.rs:133-146 | the new storage and the result are those of `TransferStep` on the old storage |
| Kitties.Pallet.Breed | pallets/kitties/src/lib.rs:149-189 | the new storage and the result are those of `BreedStep` on the old storage; the child genome comes from the `ChildDna` loop |
| Kitties.Pallet.Buy | pallets/kitties/src/lib.rs:192-195 | always returns `Ok` and modifies no storage |
| Kitties.Pallet.SetKittyPrice | pallets/kitties/src/lib.rs:199-211 | the new storage and the result are those of `SetKittyPriceStep` on the old storage |
| ProofOfExistence.CreateClaimStep | pallets/poe/src/lib.rs:66-82 | an existing claim gives `ProofAlreadyExist` with the map unchanged; otherwise the claim maps to (sender, current block) and every other key is unchanged |
| ProofOfExistence.RevokeClaimStep | pallets/poe/src/lib.rs:85-100 | an absent claim gives `ClaimNotExist`, checked before the ownership check; a non-owner gets `NotClaimOwner`; both leave the map unchanged; success happens exactly for the recorded owner and removes exactly that key |
| ProofOfExistence.TransferClaimStep | pallets/poe/src/lib.rs:103-119 | the same guards in the same order; success happens exactly for the recorded owner; the claim passes to the receiver and keeps its original block number; other keys are unchanged |
| ProofOfExistence.CreateThenRevoke | pallets/poe/src/lib.rs:73-95 | creating a fresh claim and revoking it as the same sender restores the map |
| ProofOfExistence.ClaimIsExclusive | pallets/poe/src/lib.rs:73-112 | once a claim is made, any other account fails to revoke it or transfer it (`NotClaimOwner`) and fails to claim it again (`ProofAlreadyExist`) |
| ProofOfExistence.TransferBack | pallets/poe/src/lib.rs:110-114 | transferring a claim to a receiver and having the receiver transfer it back restores the map, block number included |
| ProofOfExistence.Pallet.constructor | pallets/poe/src/lib.rs:37-42 | `Proofs` starts empty |
| ProofOfExistence.Pallet.CreateClaim | pallets/poe/src/lib.rs:66-82 | the new map and the result are those of `CreateClaimStep` on the old map |
| ProofOfExistence.Pallet.RevokeClaim | pallets/poe/src/lib.rs:85-100 | the new map and the result are those of `RevokeClaimStep` on the old map |
| ProofOfExistence.Pallet.TransferClaim | pallets/poe/src/lib.rs:103-119 | the new map and the result are those of `TransferClaimStep` on the old map |

## Left out

- The currency reserve (`T::Currency::reserve` with `CreateKittyReserve`) is external. Only its outcome enters, as the boolean `reserved`. Balances are not modelled. When the reserve succeeds and `create` then fails with `KittiesCountOverflow`, the code does not unreserve, so the reserve stays held. The model does not show this, because it has no balances.
- `random_value` is not modelled. It is a blake2-128 hash over the randomness seed, the caller and the extrinsic index. The 16-byte genome (`create`) and the selector (`breed`) are parameters instead.
- The current block number of `create_claim` (`frame_system` block number) is a parameter.
- Events (`deposit_event`) are not modelled. Neither are origin checking (`ensure_signed`, modelled as an explicit caller), call weights, storage hashers and the codec derives.
- Storage rollback on error is not modelled. In this code every guard runs before the first write, so a failing call leaves storage unchanged (stated in every `…Step` contract). The one exception is the external reserve described above.
- The design's `buy` logic is not modelled, because the code does not implement it. Neither are price clearing and reserve swapping on transfer, a reserve on breed, and the `KittyNotForSale`, `AlreadyOwned` and `BalanceNotEnough` checks. `Kitties.Pallet.Buy` models the empty stub.
- pallets/kitties/src/tests.rs is not encoded, because its test modules are disabled in the source. It also calls `transfer` with a different argument order and expects `ReserveFailed` from `transfer`, which the code never returns. Its create/`ReserveFailed` case agrees with `CreateStep`.
