/** Vocabulary shared by the component models. */
module Common {
  datatype Option<+T> = None | Some(value: T)

  datatype Result<+T, +E> = Ok(value: T) | Err(error: E)

  const U16_LIMIT: nat := 0x1_0000
  const U32_LIMIT: nat := 0x1_0000_0000
  /** The number of distinct u64 values; sequence numbers, cursors and generations wrap or fail here. */
  const U64_LIMIT: nat := 0x1_0000_0000_0000_0000

  type byte = x: int | 0 <= x < 0x100
  type u32 = x: int | 0 <= x < 0x1_0000_0000
  type u64 = x: int | 0 <= x < 0x1_0000_0000_0000_0000

  function Min(a: int, b: int): int {
    if a <= b then a else b
  }

  function Max(a: int, b: int): int {
    if a >= b then a else b
  }

  /** Subtraction that stops at zero, as saturating_sub does on unsigned integers. */
  function SaturatingSub(a: nat, b: nat): nat {
    if a >= b then a - b else 0
  }

  // ----- Ordered tables

  predicate IsLeast(k: nat, keys: set<nat>) {
    k in keys && forall other :: other in keys ==> k <= other
  }

  lemma {:induction false} SmallestExists(keys: set<nat>)
    requires keys != {}
    ensures exists k :: IsLeast(k, keys)
    decreases |keys|
  {
    var k :| k in keys;
    var rest := keys - {k};
    if rest == {} {
      assert keys == {k};
      assert IsLeast(k, keys);
    } else {
      SmallestExists(rest);
      var m :| IsLeast(m, rest);
      assert keys == rest + {k};
      var least: nat := if k <= m then k else m;
      assert IsLeast(least, keys);
    }
  }

  function Smallest(keys: set<nat>): (least: nat)
    requires keys != {}
    ensures least in keys && forall other :: other in keys ==> least <= other
  {
    SmallestExists(keys);
    assert forall j, k :: IsLeast(j, keys) && IsLeast(k, keys) ==> j == k;
    var least :| IsLeast(least, keys);
    least
  }

  lemma RemovalShrinks<K, V>(table: map<K, V>, k: K)
    ensures |table - {k}| == if k in table then |table| - 1 else |table|
  {
    assert (table - {k}).Keys == table.Keys - {k};
  }
}
