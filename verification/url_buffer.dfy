/**
 * `write_data`, the callback that collects an HTTP response body into a
 * growable buffer: each call reallocates the buffer to the new size plus
 * one, copies the incoming bytes in at the old end, and NUL-terminates.
 */
module UrlBuffer {
  /** The buffer's first allocation, zero-filled. */
  const InitialCapacity: nat := 4096

  /** `realloc`: a fresh block of `length` bytes that keeps as many of the old bytes as fit. */
  method Realloc(a: array<bv8>, length: nat) returns (b: array<bv8>)
    ensures fresh(b) && b.Length == length
    ensures forall k :: 0 <= k < a.Length && k < length ==> b[k] == a[k]
  {
    b := new bv8[length];
    var keep := if a.Length < length then a.Length else length;
    forall k | 0 <= k < keep {
      b[k] := a[k];
    }
  }

  /** `struct url_data`: the bytes received so far and their count. */
  class UrlData {
    var size: nat
    var data: array<bv8>
    /** False once a failed reallocation has freed `data`. */
    var live: bool

    /** The buffer is allocated and holds a NUL right after the `size` bytes received. */
    ghost predicate Valid()
      reads this, data
    {
      live && size < data.Length && data[size] == 0
    }

    /** The bytes received so far. */
    ghost function Contents(): seq<bv8>
      reads this, data
      requires Valid()
    {
      data[..size]
    }

    /** The buffer as the request sets it up: nothing received, 4096 zero bytes. */
    constructor ()
      ensures Valid() && fresh(data) && data.Length == InitialCapacity
      ensures size == 0 && Contents() == []
      ensures forall k :: 0 <= k < data.Length ==> data[k] == 0
    {
      size := 0;
      data := new bv8[InitialCapacity](_ => 0);
      live := true;
    }

    /**
     * Appends `itemSize * nitems` bytes. When the reallocation succeeds the
     * buffer is the old bytes followed by the new ones, exactly one byte
     * longer than `size`, NUL-terminated, and the callback reports every
     * byte handled. When it fails the buffer is freed, `size` has already
     * grown, and the callback returns `EXIT_FAILURE`.
     */
    method WriteData(buffer: seq<bv8>, itemSize: nat, nitems: nat, reallocates: bool) returns (handled: nat)
      requires Valid()
      requires |buffer| == itemSize * nitems
      modifies this
      ensures size == old(size) + itemSize * nitems
      ensures reallocates ==> Valid() && fresh(data) && data.Length == size + 1
      ensures reallocates ==> Contents() == old(Contents()) + buffer && handled == itemSize * nitems
      ensures !reallocates ==> !live && handled == 1
    {
      var index := size;
      var n := itemSize * nitems;
      size := size + n;
      if !reallocates {
        live := false;
        return 1;
      }
      var tmp := Realloc(data, size + 1);
      forall k | 0 <= k < n {
        tmp[index + k] := buffer[k];
      }
      tmp[size] := 0;
      assert tmp[..size] == old(Contents()) + buffer by {
        assert forall k :: 0 <= k < index ==> tmp[k] == old(data[k]);
      }
      data := tmp;
      return n;
    }
  }
}
