/** Error kinds of the console bank, and the wrappers the model returns them in.
    Every `throw new Error(...)` of the source becomes an `Err` of one of these kinds. */
module Results {

  datatype Error =
    | Closed             // "Account is closed."
    | Frozen             // "Account is frozen."
    | InvalidAmount      // "Invalid amount."
    | InsufficientFunds  // "Insufficient funds."
    | NotFound           // "Account not found.", target customer or account missing
    | UsernameExists     // "Username exists."
    | AuthFailed         // wrong old password, wrong PIN

  /** A value, or JavaScript's `null`/`undefined`. */
  datatype Option<+T> = None | Some(value: T)

  /** A value, or the error an operation threw. */
  datatype Result<+T> = Ok(value: T) | Err(error: Error)
}

/** `Array.prototype.find` and `Array.prototype.some`, which the lookups of the source use. */
module Search {
  import opened Results

  /** The index of the first element that satisfies `p`, or `None` when none does. */
  function FindFirst<T>(s: seq<T>, p: T -> bool): (r: Option<nat>)
    ensures r.Some? ==> r.value < |s| && p(s[r.value])
    ensures r.Some? ==> forall j :: 0 <= j < r.value ==> !p(s[j])
    ensures r.None? <==> forall j :: 0 <= j < |s| ==> !p(s[j])
  {
    if s == [] then None
    else if p(s[0]) then Some(0)
    else
      match FindFirst(s[1..], p)
      case None => None
      case Some(i) => Some(i + 1)
  }
}

/** The dynamically typed argument of the static validators: they test `typeof` first,
    so the model keeps the cases they tell apart. */
module Values {
  datatype Value =
    | Str(s: string)  // typeof v === 'string'
    | Num(n: real)    // typeof v === 'number' (NaN and the infinities are not modelled)
    | Other           // anything else: null, undefined, objects, booleans
}
