/** The kitties pallet: creation, breeding, transfer and price listing of
    kitties, each identified by a `u32` index and carrying a 16-byte genome.
    Storage is four items: the kitty count, the genomes, the owners and the
    prices. Every call checks its guards in order and only then writes. */
module Kitties {
  import opened Dispatch
  import opened KittyDna

  /** `u32::max_value()`, the largest kitty index. */
  const KITTY_INDEX_MAX: int := 0xFFFF_FFFF

  /** `KittyIndex = u32`. */
  type KittyIndex = i: int | 0 <= i <= KITTY_INDEX_MAX

  /** The currency's balance type; only zero versus non-zero matters here. */
  type Balance = nat

  /** The pallet's errors, in declaration order. */
  datatype Error =
    | KittiesCountOverflow
    | NotKittyOwner
    | SameParentIndex
    | InvalidKittyIndex
    | ReserveFailed
    | InvalidKittyPrice

  /** A snapshot of the pallet's storage; an absent key reads as `None`. */
  datatype Storage<A> = Storage(
    kittiesCount: Option<KittyIndex>,
    kitties: map<KittyIndex, Dna>,
    owner: map<KittyIndex, A>,
    priceOf: map<KittyIndex, Balance>)
  {
    /** What every state reachable from genesis satisfies: the kitties are
        exactly the ids below the count, every kitty has an owner and only
        kitties have owners, and a price is listed only for an owned kitty. */
    ghost predicate Valid() {
      && (forall id: KittyIndex :: id in kitties <==> kittiesCount.Some? && id < kittiesCount.value)
      && owner.Keys == kitties.Keys
      && priceOf.Keys <= owner.Keys
    }
  }

  type KittyStep<A> = Step<Storage<A>, Error>

  /** Storage at genesis: nothing stored, the count unset. */
  function Genesis<A>(): (s: Storage<A>)
    ensures s.Valid()
  {
    Storage(None, map[], map[], map[])
  }

  /** `Some(who) == Owner::get(id)`. */
  predicate IsOwner<A(==)>(owner: map<KittyIndex, A>, id: KittyIndex, who: A) {
    id in owner && owner[id] == who
  }

  /** The id a new kitty takes: the stored count, or `default` when unset. */
  function NextId(count: Option<KittyIndex>, default: KittyIndex): KittyIndex {
    match count
    case Some(id) => id
    case None => default
  }

  /** `s'` is `s` with a new kitty `id` of genome `dna` owned by `who`, the
      count moved to `id + 1`, every other entry and every price unchanged. */
  ghost predicate Born<A>(s: Storage<A>, s': Storage<A>, id: KittyIndex, dna: Dna, who: A) {
    && s'.kittiesCount.Some? && s'.kittiesCount.value == id + 1
    && s'.kitties == s.kitties[id := dna]
    && s'.owner == s.owner[id := who]
    && s'.priceOf == s.priceOf
  }

  /** Writes a new kitty at `id`; the caller has ruled out `id == u32::MAX`. */
  function Insert<A>(s: Storage<A>, id: KittyIndex, dna: Dna, who: A): KittyStep<A>
    requires id < KITTY_INDEX_MAX
  {
    Step(Storage(Some(id + 1), s.kitties[id := dna], s.owner[id := who], s.priceOf), Ok)
  }

  /** `create`: take the reserve, allocate the id from the count (0 when
      unset), refuse it at `u32::MAX`, then store genome, owner and count. */
  function CreateStep<A>(s: Storage<A>, who: A, dna: Dna, reserved: bool): (r: KittyStep<A>)
    ensures !reserved ==> r == Step(s, Err(ReserveFailed))
    ensures reserved && s.kittiesCount == Some(KITTY_INDEX_MAX) ==> r == Step(s, Err(KittiesCountOverflow))
    ensures r.result == Ok <==> reserved && s.kittiesCount != Some(KITTY_INDEX_MAX)
    ensures r.result == Ok ==> Born(s, r.state, NextId(s.kittiesCount, 0), dna, who)
    ensures s.Valid() ==> r.state.Valid()
  {
    if !reserved then Step(s, Err(ReserveFailed))
    else match s.kittiesCount
      case Some(id) =>
        if id == KITTY_INDEX_MAX then Step(s, Err(KittiesCountOverflow))
        else Insert(s, id, dna, who)
      case None => Insert(s, 0, dna, who)
  }

  /** `transfer`: only the owner may hand a kitty on; only its owner entry changes. */
  function TransferStep<A(==)>(s: Storage<A>, who: A, id: KittyIndex, newOwner: A): (r: KittyStep<A>)
    ensures !IsOwner(s.owner, id, who) ==> r == Step(s, Err(NotKittyOwner))
    ensures IsOwner(s.owner, id, who) ==>
      r.result == Ok && r.state == s.(owner := s.owner[id := newOwner])
    ensures s.Valid() ==> r.state.Valid()
  {
    if !IsOwner(s.owner, id, who) then Step(s, Err(NotKittyOwner))
    else Step(s.(owner := s.owner[id := newOwner]), Ok)
  }

  /** The guards of `breed` that need no count: distinct parents, both
      existing, both owned by the caller, checked in that order. */
  function BreedCheck<A(==)>(s: Storage<A>, who: A, id1: KittyIndex, id2: KittyIndex): Option<Error> {
    if id1 == id2 then Some(SameParentIndex)
    else if id1 !in s.kitties || id2 !in s.kitties then Some(InvalidKittyIndex)
    else if !IsOwner(s.owner, id1, who) || !IsOwner(s.owner, id2, who) then Some(NotKittyOwner)
    else None
  }

  /** `breed`: after the guards, allocate the child id from the count (1 when
      unset), refuse it at `u32::MAX`, mix the genomes under `selector` and
      store the child as `create` does. */
  function BreedStep<A(==)>(s: Storage<A>, who: A, id1: KittyIndex, id2: KittyIndex, selector: Dna): (r: KittyStep<A>)
    ensures id1 == id2 ==> r == Step(s, Err(SameParentIndex))
    ensures id1 != id2 && (id1 !in s.kitties || id2 !in s.kitties) ==> r == Step(s, Err(InvalidKittyIndex))
    ensures (id1 != id2 && id1 in s.kitties && id2 in s.kitties
             && !(IsOwner(s.owner, id1, who) && IsOwner(s.owner, id2, who))) ==> r == Step(s, Err(NotKittyOwner))
    ensures BreedCheck(s, who, id1, id2) == None && s.kittiesCount == Some(KITTY_INDEX_MAX) ==>
      r == Step(s, Err(KittiesCountOverflow))
    ensures r.result == Ok <==> BreedCheck(s, who, id1, id2) == None && s.kittiesCount != Some(KITTY_INDEX_MAX)
    ensures r.result == Ok ==>
      Born(s, r.state, NextId(s.kittiesCount, 1), Mix(selector, s.kitties[id1], s.kitties[id2]), who)
    ensures s.Valid() ==> r.state.Valid()
  {
    match BreedCheck(s, who, id1, id2)
    case Some(e) => Step(s, Err(e))
    case None =>
      var child := Mix(selector, s.kitties[id1], s.kitties[id2]);
      match s.kittiesCount
      case Some(id) =>
        if id == KITTY_INDEX_MAX then Step(s, Err(KittiesCountOverflow))
        else Insert(s, id, child, who)
      case None => Insert(s, 1, child, who)
  }

  /** `set_kitty_price`: ownership first, then a non-zero price; only the
      kitty's price entry changes. */
  function SetKittyPriceStep<A(==)>(s: Storage<A>, who: A, id: KittyIndex, price: Balance): (r: KittyStep<A>)
    ensures !IsOwner(s.owner, id, who) ==> r == Step(s, Err(NotKittyOwner))
    ensures IsOwner(s.owner, id, who) && price == 0 ==> r == Step(s, Err(InvalidKittyPrice))
    ensures r.result == Ok <==> IsOwner(s.owner, id, who) && price != 0
    ensures r.result == Ok ==> r.state == s.(priceOf := s.priceOf[id := price])
    ensures s.Valid() ==> r.state.Valid()
  {
    if !IsOwner(s.owner, id, who) then Step(s, Err(NotKittyOwner))
    else if price == 0 then Step(s, Err(InvalidKittyPrice))
    else Step(s.(priceOf := s.priceOf[id := price]), Ok)
  }

  /** One dispatchable call with its signed caller and arguments. The values
      the pallet takes from outside (the reserve's outcome, the random
      genome or selector) travel with the call. */
  datatype Call<A> =
    | Create(who: A, dna: Dna, reserved: bool)
    | Transfer(who: A, id: KittyIndex, newOwner: A)
    | Breed(who: A, id1: KittyIndex, id2: KittyIndex, selector: Dna)
    | Buy(who: A, seller: A, id: KittyIndex)
    | SetKittyPrice(who: A, id: KittyIndex, price: Balance)

  /** The effect of one call on storage; `buy` is a stub that changes nothing. */
  function Apply<A(==)>(s: Storage<A>, c: Call<A>): KittyStep<A> {
    match c
    case Create(who, dna, reserved) => CreateStep(s, who, dna, reserved)
    case Transfer(who, id, newOwner) => TransferStep(s, who, id, newOwner)
    case Breed(who, id1, id2, selector) => BreedStep(s, who, id1, id2, selector)
    case Buy(_, _, _) => Step(s, Ok)
    case SetKittyPrice(who, id, price) => SetKittyPriceStep(s, who, id, price)
  }

  /** Storage after applying `calls` in order, failed calls included. */
  function Run<A(==)>(s: Storage<A>, calls: seq<Call<A>>): Storage<A>
    decreases |calls|
  {
    if calls == [] then s else Run(Apply(s, calls[0]).state, calls[1..])
  }

  /** Every call keeps the storage invariant. */
  lemma {:induction false} ApplyPreservesValid<A>(s: Storage<A>, c: Call<A>)
    requires s.Valid()
    ensures Apply(s, c).state.Valid()
  {
  }

  /** Every state reachable from genesis satisfies the invariant. */
  lemma {:induction false} ReachableIsValid<A>(s: Storage<A>, calls: seq<Call<A>>)
    requires s.Valid()
    ensures Run(s, calls).Valid()
    decreases |calls|
  {
    if calls != [] {
      ApplyPreservesValid(s, calls[0]);
      ReachableIsValid(Apply(s, calls[0]).state, calls[1..]);
    }
  }

  /** A successful `create` or `breed` from a valid state allocates an id
      above every existing one, so no existing kitty or owner entry is touched. */
  lemma {:induction false} BornIdIsFresh<A>(s: Storage<A>, s': Storage<A>, id: KittyIndex, dna: Dna, who: A)
    requires s.Valid() && s.kittiesCount.Some? && id == s.kittiesCount.value
    requires Born(s, s', id, dna, who)
    ensures forall k :: k in s.kitties ==> k < id && s'.kitties[k] == s.kitties[k]
    ensures forall k :: k in s.owner ==> s'.owner[k] == s.owner[k]
  {
  }

  /** Breeding from a valid state leaves both parents' genomes and owners as
      they were, and the child's id is above every existing id. */
  lemma {:induction false} BreedKeepsParents<A>(s: Storage<A>, who: A, id1: KittyIndex, id2: KittyIndex, selector: Dna)
    requires s.Valid()
    requires BreedStep(s, who, id1, id2, selector).result == Ok
    ensures var s' := BreedStep(s, who, id1, id2, selector).state;
      && s'.kitties[id1] == s.kitties[id1] && s'.kitties[id2] == s.kitties[id2]
      && s'.owner[id1] == who && s'.owner[id2] == who
    ensures forall k :: k in s.kitties ==> k < NextId(s.kittiesCount, 1)
  {
    var s' := BreedStep(s, who, id1, id2, selector).state;
    assert id1 in s.kitties;
    BornIdIsFresh(s, s', s.kittiesCount.value, Mix(selector, s.kitties[id1], s.kitties[id2]), who);
  }

  /** From a valid state, `breed`'s default id for an unset count is never
      used: with no count there are no kitties, so the parents do not exist. */
  lemma BreedNeverUsesDefaultId<A>(s: Storage<A>, who: A, id1: KittyIndex, id2: KittyIndex, selector: Dna)
    requires s.Valid() && s.kittiesCount == None
    ensures BreedStep(s, who, id1, id2, selector).result != Ok
  {
    assert id1 !in s.kitties;
  }

  /** A genome never changes once stored, and a kitty never loses its owner,
      whatever calls follow. */
  lemma {:induction false} KittiesArePermanent<A>(s: Storage<A>, calls: seq<Call<A>>)
    requires s.Valid()
    ensures forall k :: k in s.kitties ==> k in Run(s, calls).kitties && Run(s, calls).kitties[k] == s.kitties[k]
    ensures forall k :: k in s.owner ==> k in Run(s, calls).owner
    decreases |calls|
  {
    if calls != [] {
      var s' := Apply(s, calls[0]).state;
      ApplyPreservesValid(s, calls[0]);
      ApplyKeepsKitties(s, calls[0]);
      KittiesArePermanent(s', calls[1..]);
    }
  }

  /** One call keeps every stored genome and every owner key. */
  lemma {:induction false} ApplyKeepsKitties<A>(s: Storage<A>, c: Call<A>)
    requires s.Valid()
    ensures forall k :: k in s.kitties ==> k in Apply(s, c).state.kitties && Apply(s, c).state.kitties[k] == s.kitties[k]
    ensures forall k :: k in s.owner ==> k in Apply(s, c).state.owner
  {
    var r := Apply(s, c);
    match c
    case Create(who, dna, reserved) =>
      if r.result == Ok && s.kittiesCount.Some? {
        BornIdIsFresh(s, r.state, s.kittiesCount.value, dna, who);
      }
    case Transfer(who, id, newOwner) =>
    case Breed(who, id1, id2, selector) =>
      if r.result == Ok {
        BreedKeepsParents(s, who, id1, id2, selector);
      }
    case Buy(_, _, _) =>
    case SetKittyPrice(who, id, price) =>
  }

  /** The pallet's storage, updated in place by its dispatchable calls. */
  class Pallet<A(==)> {
    var kittiesCount: Option<KittyIndex>
    var kitties: map<KittyIndex, Dna>
    var owner: map<KittyIndex, A>
    var priceOf: map<KittyIndex, Balance>

    /** The storage as a value. */
    function Snapshot(): Storage<A>
      reads this
    {
      Storage(kittiesCount, kitties, owner, priceOf)
    }

    ghost predicate Valid()
      reads this
    {
      Snapshot().Valid()
    }

    /** Genesis storage. */
    constructor ()
      ensures Snapshot() == Genesis() && Valid()
    {
      kittiesCount := None;
      kitties := map[];
      owner := map[];
      priceOf := map[];
    }

    /** Stores a new kitty at `id` for `who` and bumps the count. */
    method Birth(id: KittyIndex, dna: Dna, who: A)
      requires id < KITTY_INDEX_MAX
      modifies this
      ensures Step(Snapshot(), Ok) == Insert(old(Snapshot()), id, dna, who)
    {
      kitties := kitties[id := dna];
      owner := owner[id := who];
      kittiesCount := Some(id + 1);
    }

    /** `create`, with the reserve's outcome and the random genome as inputs. */
    method Create(who: A, dna: Dna, reserved: bool) returns (r: DispatchResult<Error>)
      modifies this
      ensures Step(Snapshot(), r) == CreateStep(old(Snapshot()), who, dna, reserved)
      ensures old(Valid()) ==> Valid()
    {
      if !reserved {
        return Err(ReserveFailed);
      }
      var kittyId: KittyIndex;
      match kittiesCount {
        case Some(id) =>
          if id == KITTY_INDEX_MAX {
            return Err(KittiesCountOverflow);
          }
          kittyId := id;
        case None =>
          kittyId := 0;
      }
      Birth(kittyId, dna, who);
      r := Ok;
    }

    /** `transfer`. */
    method Transfer(who: A, kittyId: KittyIndex, newOwner: A) returns (r: DispatchResult<Error>)
      modifies this
      ensures Step(Snapshot(), r) == TransferStep(old(Snapshot()), who, kittyId, newOwner)
      ensures old(Valid()) ==> Valid()
    {
      if !IsOwner(owner, kittyId, who) {
        return Err(NotKittyOwner);
      }
      owner := owner[kittyId := newOwner];
      r := Ok;
    }

    /** `breed`, with the random selector as input. */
    method Breed(who: A, kittyId1: KittyIndex, kittyId2: KittyIndex, selector: Dna) returns (r: DispatchResult<Error>)
      modifies this
      ensures Step(Snapshot(), r) == BreedStep(old(Snapshot()), who, kittyId1, kittyId2, selector)
      ensures old(Valid()) ==> Valid()
    {
      if kittyId1 == kittyId2 {
        return Err(SameParentIndex);
      }
      if kittyId1 !in kitties || kittyId2 !in kitties {
        return Err(InvalidKittyIndex);
      }
      var dna1, dna2 := kitties[kittyId1], kitties[kittyId2];
      if !IsOwner(owner, kittyId1, who) || !IsOwner(owner, kittyId2, who) {
        return Err(NotKittyOwner);
      }
      var childId: KittyIndex;
      match kittiesCount {
        case Some(id) =>
          if id == KITTY_INDEX_MAX {
            return Err(KittiesCountOverflow);
          }
          childId := id;
        case None =>
          childId := 1;
      }
      var childDna := ChildDna(selector, dna1, dna2);
      Birth(childId, childDna, who);
      r := Ok;
    }

    /** `buy`: an empty stub that accepts every call and changes nothing. */
    method Buy(who: A, seller: A, kittyId: KittyIndex) returns (r: DispatchResult<Error>)
      ensures r == Ok
    {
      r := Ok;
    }

    /** `set_kitty_price`. */
    method SetKittyPrice(who: A, kittyId: KittyIndex, price: Balance) returns (r: DispatchResult<Error>)
      modifies this
      ensures Step(Snapshot(), r) == SetKittyPriceStep(old(Snapshot()), who, kittyId, price)
      ensures old(Valid()) ==> Valid()
    {
      if !IsOwner(owner, kittyId, who) {
        return Err(NotKittyOwner);
      }
      if price == 0 {
        return Err(InvalidKittyPrice);
      }
      priceOf := priceOf[kittyId := price];
      r := Ok;
    }
  }
}
