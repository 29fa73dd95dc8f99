/** Small shared vocabulary. */
module Common {
  datatype Option<+T> = None | Some(value: T)

  function Optional<T>(o: Option<T>): seq<T> {
    if o.None? then [] else [o.value]
  }

  function LastN<T>(s: seq<T>, n: nat): seq<T> {
    if |s| <= n then s else s[|s| - n..]
  }

  /** What a permission option decides; anything else than allowing or rejecting is no decision. */
  datatype Decision = Allow | Reject | OtherKind
}
