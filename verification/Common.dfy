/** Names shared by every component: optional values, machine-integer bounds and identifiers. */
module Common {
  datatype Option<+T> = None | Some(value: T) {
    /** The value, or `default` when there is none. */
    function GetOr(default: T): T {
      if Some? then value else default
    }
  }

  const U32_MAX: nat := 0xFFFF_FFFF
  const U64_MAX: nat := 0xFFFF_FFFF_FFFF_FFFF
  const U128_MAX: nat := 0xFFFF_FFFF_FFFF_FFFF_FFFF_FFFF_FFFF_FFFF

  type byte = b: int | 0 <= b < 256

  /** A NEAR account name. */
  type AccountId = string

  /** A ticket, job, publication or payment reference name. */
  type Id = string

  /** `LookupMap::get(..).unwrap_or(0)`. */
  function Lookup<K>(m: map<K, nat>, k: K): nat {
    if k in m then m[k] else 0
  }
}
