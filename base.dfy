/** Small value types shared by the whole model: optional values, the
    success-or-error results the NIF functions return, and bytes; and the
    order in which IDs drawn from a process-wide counter are issued. */
module Base {

  datatype Option<T> = None | Some(value: T) {
    /** The wrapped value, or `default` when there is none
        (Rust's `unwrap_or_else`). */
    function GetOr(default: T): T {
      match this
      case Some(v) => v
      case None => default
    }
  }

  /** A NIF result: `Ok` with a value; `Err` with the text of an error
      term the NIF returns to its caller as `{:error, reason}`; or `Raised`
      with the text of a term the NIF raises as an exception instead. */
  datatype Result<T> = Ok(value: T) | Err(error: string) | Raised(error: string)

  /** A result that carries no value, as `Result<(), E>` in Rust. */
  datatype Outcome = Pass | Fail(error: string)

  newtype byte = b: int | 0 <= b < 256

  /** The exception a NIF raises when its Rust code panics. */
  const NifPanicked: string := "nif_panicked"

  // ---------------------------------------------------------------------
  // IDs drawn from a counter

  /** IDs that were all drawn, in order, from a counter now at `next`: the
      last ID is below `next` and the rest were drawn before it. */
  ghost predicate IssuedBefore(ids: seq<nat>, next: nat)
    decreases |ids|
  {
    ids == [] ||
    (ids[|ids| - 1] < next && IssuedBefore(ids[..|ids| - 1], ids[|ids| - 1]))
  }

  /** Drawing one more ID from the counter keeps the list issued. */
  lemma AppendKeepsIssued(ids: seq<nat>, next: nat)
    requires IssuedBefore(ids, next)
    ensures IssuedBefore(ids + [next], next + 1)
  {
    assert (ids + [next])[..|ids|] == ids;
  }

  /** IDs drawn in order are strictly increasing, hence pairwise distinct,
      and all below the counter. */
  lemma {:induction false} IssuedIdsIncrease(ids: seq<nat>, next: nat)
    requires IssuedBefore(ids, next)
    ensures forall i, j :: 0 <= i < j < |ids| ==> ids[i] < ids[j]
    ensures forall i :: 0 <= i < |ids| ==> ids[i] < next
  {
    if ids != [] {
      var init, last := ids[..|ids| - 1], ids[|ids| - 1];
      IssuedIdsIncrease(init, last);
      assert forall i :: 0 <= i < |init| ==> ids[i] == init[i];
    }
  }
}
