/** Go error values as the repository uses them: a few package-level
    sentinels created with `errors.New`, errors produced by collaborators,
    and errors wrapped with `fmt.Errorf("...%w...")`.

    Two comparisons appear in the source and they differ:
    - `err == target` is identity of the error value, so a wrapped sentinel
      is NOT equal to the sentinel;
    - `errors.Is(err, target)` follows the wrap chain. */
module GoErrors {

  datatype Error =
    /** `db.DatabaseError` ("Error has occured when connecting to database"). */
    | DatabaseError
    /** `db.InvalidFilter` ("Invalid filter"). */
    | InvalidFilter
    /** `db.NoSuchPibError`, referenced by the company controller. */
    | NoSuchPibError
    /** Any other error a collaborator (gin binding, bcrypt, the signer, the SQL driver) returns. */
    | Opaque(text: string)
    /** `fmt.Errorf(before + "%w" + after, inner)`. */
    | Wrapped(before: string, inner: Error, after: string)

  /** `errors.Is(e, target)`: `e` is `target` or wraps it, at any depth. */
  predicate Is(e: Error, target: Error)
    decreases e
  {
    e == target || (e.Wrapped? && Is(e.inner, target))
  }

  /** `fmt.Errorf` with one `%w` verb. */
  function Errorf(before: string, inner: Error, after: string): (e: Error)
    ensures forall t :: Is(inner, t) ==> Is(e, t)
    ensures e != inner
  {
    Wrapped(before, inner, after)
  }

  /** Wrapping always breaks identity but never breaks `errors.Is`. */
  lemma {:induction false} WrappedSentinelIsNotIdentical(before: string, after: string, sentinel: Error)
    ensures Errorf(before, sentinel, after) != sentinel
    ensures Is(Errorf(before, sentinel, after), sentinel)
  {
  }
}
