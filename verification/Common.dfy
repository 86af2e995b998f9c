/** Result types shared by every component. */
module Common {
  datatype Option<+T> = None | Some(value: T)

  datatype Result<+T, +E> = Ok(value: T) | Err(error: E)

  /** The artifacts a base is constructed from. */
  const KINDS := {"bsp", "sample_rootfs"}

  function LowerChar(c: char): char { if 'A' <= c <= 'Z' then c - 'A' + 'a' else c }

  function Lower(s: string): string { seq(|s|, i requires 0 <= i < |s| => LowerChar(s[i])) }

  /** A value of the type that a finite set does not contain, when one set bounds it by length. */
  lemma LongerThanAll(pool: set<string>) returns (unused: string)
    ensures unused !in pool && |unused| > 0 && unused[0] == 'f'
  {
    var bound := LengthBound(pool);
    unused := seq(bound + 1, i => 'f');
  }

  lemma LengthBound(pool: set<string>) returns (bound: nat)
    ensures forall s :: s in pool ==> |s| <= bound
  {
    if pool == {} {
      bound := 0;
    } else {
      var s :| s in pool;
      var rest := LengthBound(pool - {s});
      bound := if |s| <= rest then rest else |s|;
    }
  }
}
