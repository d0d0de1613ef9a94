/** Result types shared by the two pallets: what a dispatchable call returns,
    and a call applied to a storage snapshot. */
module Dispatch {

  /** Rust's `Option`: a storage read that may find nothing. */
  datatype Option<+T> = None | Some(value: T)

  /** A dispatchable call's outcome: `Ok(())` or one of the pallet's typed errors. */
  datatype DispatchResult<+E> = Ok | Err(error: E)

  /** One call applied to a storage snapshot: the storage it leaves and what it returns. */
  datatype Step<+S, +E> = Step(state: S, result: DispatchResult<E>)
}
