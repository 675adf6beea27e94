/** The runtime value and the constant pool (src/value.rs). */
module Values {
  import opened Common

  /** A runtime value is an IEEE-754 binary64 number (`f64`). The model keeps
      only its bit pattern: no arithmetic on values is interpreted here. */
  datatype Value = F64(bits: bv64)

  /** The value `0 as Value`, i.e. positive zero. */
  const Zero: Value := F64(0)

  /** `ValueArray`: an optional, growable vector of values. */
  class ValueArray {
    var values: Option<seq<Value>>

    /** `init_value_array`: the vector is present and empty. */
    constructor Init()
      ensures values == Some([])
      ensures Count() == 0
    {
      values := Some([]);
    }

    /** `count`: the number of stored values; an absent vector holds none. */
    function Count(): (n: nat)
      reads this
      ensures values.None? ==> n == 0
      ensures values.Some? ==> n == |values.value|
    {
      match values
      case Some(c) => |c|
      case None => 0
    }

    /** `get`: the value at `offset`. The source panics on an absent vector and
        on an index past the end; both are excluded by `offset < Count()`,
        because an absent vector has count 0. */
    function Get(offset: nat): (v: Value)
      reads this
      requires offset < Count()
      ensures values.Some? && v == values.value[offset]
    {
      values.value[offset]
    }

    /** `write_value_array`: push `value` at the end. The source panics with
        "Uninitialized value array!" on an absent vector. */
    method Write(value: Value)
      requires values.Some?
      modifies this
      ensures values == Some(old(values.value) + [value])
      ensures Count() == old(Count()) + 1
      ensures Get(old(Count())) == value
      ensures forall i :: 0 <= i < old(Count()) ==> Get(i) == old(Get(i))
    {
      values := Some(values.value + [value]);
    }
  }

  /** Every array built by `init_value_array` and grown only by
      `write_value_array` keeps its vector, so the panics on an absent vector
      are never reached; reading back yields exactly the values written, in
      order. */
  method PoolRoundTrip(written: seq<Value>) returns (read: seq<Value>)
    ensures read == written
  {
    var pool := new ValueArray.Init();
    var i := 0;
    while i < |written|
      invariant 0 <= i <= |written|
      invariant pool.values == Some(written[..i])
    {
      pool.Write(written[i]);
      assert written[..i + 1] == written[..i] + [written[i]];
      i := i + 1;
    }
    assert written[..i] == written;
    read := [];
    var j := 0;
    while j < pool.Count()
      invariant 0 <= j <= pool.Count() == |written|
      invariant pool.values == Some(written)
      invariant read == written[..j]
    {
      read := read + [pool.Get(j)];
      j := j + 1;
    }
  }
}
