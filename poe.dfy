/** The proof-of-existence pallet: one storage map from a claim (any byte
    string) to the account that claimed it and the block it was claimed in. */
module ProofOfExistence {
  import opened Dispatch

  type Claim = seq<bv8>
  type BlockNumber = nat

  /** The value stored for a claim: `(T::AccountId, T::BlockNumber)`. */
  datatype Proof<A> = Proof(owner: A, block: BlockNumber)

  /** The `Proofs` storage map. */
  type Proofs<A> = map<Claim, Proof<A>>

  /** The pallet's errors, in declaration order. */
  datatype Error = ProofAlreadyExist | ClaimNotExist | NotClaimOwner

  type PoeStep<A> = Step<Proofs<A>, Error>

  /** `create_claim`: a claim can be made only once; it records the sender and
      the current block and touches no other claim. */
  function CreateClaimStep<A>(proofs: Proofs<A>, sender: A, claim: Claim, currentBlock: BlockNumber): (r: PoeStep<A>)
    ensures claim in proofs ==> r == Step(proofs, Err(ProofAlreadyExist))
    ensures claim !in proofs ==> r.result == Ok
    ensures r.result == Ok ==>
      && r.state.Keys == proofs.Keys + {claim}
      && r.state[claim] == Proof(sender, currentBlock)
      && forall c :: c in proofs ==> r.state[c] == proofs[c]
  {
    if claim in proofs then Step(proofs, Err(ProofAlreadyExist))
    else Step(proofs[claim := Proof(sender, currentBlock)], Ok)
  }

  /** `revoke_claim`: the claim must exist, then only its owner may remove it;
      exactly that key disappears. */
  function RevokeClaimStep<A(==)>(proofs: Proofs<A>, sender: A, claim: Claim): (r: PoeStep<A>)
    ensures claim !in proofs ==> r == Step(proofs, Err(ClaimNotExist))
    ensures claim in proofs && proofs[claim].owner != sender ==> r == Step(proofs, Err(NotClaimOwner))
    ensures r.result == Ok <==> claim in proofs && proofs[claim].owner == sender
    ensures r.result == Ok ==>
      && r.state.Keys == proofs.Keys - {claim}
      && forall c :: c in r.state ==> r.state[c] == proofs[c]
  {
    if claim !in proofs then Step(proofs, Err(ClaimNotExist))
    else if proofs[claim].owner != sender then Step(proofs, Err(NotClaimOwner))
    else Step(proofs - {claim}, Ok)
  }

  /** `transfer_claim`: the same guards as `revoke_claim`; the claim passes to
      `receiver` with its original block number, and no other claim changes. */
  function TransferClaimStep<A(==)>(proofs: Proofs<A>, sender: A, receiver: A, claim: Claim): (r: PoeStep<A>)
    ensures claim !in proofs ==> r == Step(proofs, Err(ClaimNotExist))
    ensures claim in proofs && proofs[claim].owner != sender ==> r == Step(proofs, Err(NotClaimOwner))
    ensures r.result == Ok <==> claim in proofs && proofs[claim].owner == sender
    ensures r.result == Ok ==>
      && r.state.Keys == proofs.Keys
      && r.state[claim] == Proof(receiver, proofs[claim].block)
      && forall c :: c in proofs && c != claim ==> r.state[c] == proofs[c]
  {
    if claim !in proofs then Step(proofs, Err(ClaimNotExist))
    else if proofs[claim].owner != sender then Step(proofs, Err(NotClaimOwner))
    else Step(proofs[claim := Proof(receiver, proofs[claim].block)], Ok)
  }

  /** Creating a fresh claim and revoking it as the same sender restores the map. */
  lemma {:induction false} CreateThenRevoke<A>(proofs: Proofs<A>, sender: A, claim: Claim, currentBlock: BlockNumber)
    requires claim !in proofs
    ensures var created := CreateClaimStep(proofs, sender, claim, currentBlock);
      created.result == Ok && RevokeClaimStep(created.state, sender, claim) == Step(proofs, Ok)
  {
    var created := CreateClaimStep(proofs, sender, claim, currentBlock).state;
    var revoked := RevokeClaimStep(created, sender, claim).state;
    assert revoked.Keys == proofs.Keys;
    assert revoked == proofs;
  }

  /** Once claimed, a claim can be revoked or transferred by nobody but its
      claimant, and cannot be claimed again. */
  lemma {:induction false} ClaimIsExclusive<A>(proofs: Proofs<A>, sender: A, other: A, receiver: A, claim: Claim, b1: BlockNumber, b2: BlockNumber)
    requires claim !in proofs && other != sender
    ensures var p := CreateClaimStep(proofs, sender, claim, b1).state;
      && RevokeClaimStep(p, other, claim) == Step(p, Err(NotClaimOwner))
      && TransferClaimStep(p, other, receiver, claim) == Step(p, Err(NotClaimOwner))
      && CreateClaimStep(p, other, claim, b2) == Step(p, Err(ProofAlreadyExist))
  {
    var p := CreateClaimStep(proofs, sender, claim, b1).state;
    assert claim in p && p[claim].owner == sender;
  }

  /** Transferring a claim and transferring it back restores the map. */
  lemma {:induction false} TransferBack<A>(proofs: Proofs<A>, sender: A, receiver: A, claim: Claim)
    requires claim in proofs && proofs[claim].owner == sender
    ensures var there := TransferClaimStep(proofs, sender, receiver, claim);
      there.result == Ok && TransferClaimStep(there.state, receiver, sender, claim) == Step(proofs, Ok)
  {
    var there := TransferClaimStep(proofs, sender, receiver, claim).state;
    var back := TransferClaimStep(there, receiver, sender, claim).state;
    assert back[claim] == proofs[claim];
    assert back == proofs;
  }

  /** The pallet's storage, updated in place by its dispatchable calls. */
  class Pallet<A(==)> {
    var proofs: Proofs<A>

    /** Genesis storage: no claims. */
    constructor ()
      ensures proofs == map[]
    {
      proofs := map[];
    }

    /** `create_claim`, with the current block number as input. */
    method CreateClaim(sender: A, claim: Claim, currentBlock: BlockNumber) returns (r: DispatchResult<Error>)
      modifies this
      ensures Step(proofs, r) == CreateClaimStep(old(proofs), sender, claim, currentBlock)
    {
      if claim in proofs {
        return Err(ProofAlreadyExist);
      }
      proofs := proofs[claim := Proof(sender, currentBlock)];
      r := Ok;
    }

    /** `revoke_claim`. */
    method RevokeClaim(sender: A, claim: Claim) returns (r: DispatchResult<Error>)
      modifies this
      ensures Step(proofs, r) == RevokeClaimStep(old(proofs), sender, claim)
    {
      if claim !in proofs {
        return Err(ClaimNotExist);
      }
      var Proof(owner, _) := proofs[claim];
      if sender != owner {
        return Err(NotClaimOwner);
      }
      proofs := proofs - {claim};
      r := Ok;
    }

    /** `transfer_claim`. */
    method TransferClaim(sender: A, receiver: A, claim: Claim) returns (r: DispatchResult<Error>)
      modifies this
      ensures Step(proofs, r) == TransferClaimStep(old(proofs), sender, receiver, claim)
    {
      if claim !in proofs {
        return Err(ClaimNotExist);
      }
      var Proof(owner, blockNum) := proofs[claim];
      if sender != owner {
        return Err(NotClaimOwner);
      }
      proofs := proofs[claim := Proof(receiver, blockNum)];
      r := Ok;
    }
  }
}
