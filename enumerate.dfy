/**
 * The two-call enumeration idiom of the Vulkan C ABI, as the wrapper uses it:
 * a first call with a null buffer stores the number of elements; a second
 * call with a buffer of that capacity stores the elements and, again, their
 * number; the wrapper then sets its vector's length to that second count.
 */
module VkEnumerate {
  import ffi = VkFfi
  import opened Outcome

  /** What one call of an enumerating entry point returns and writes. */
  datatype Call<T> = Call(code: ffi.Result, written: ffi.Written<T>)

  /**
   * An enumerating entry point applied to its fixed arguments: given `None` (a
   * null buffer) it stores only a count; given `Some(capacity)` it fills the
   * buffer. Entry points that return `void` report `Success` here.
   */
  type Enumerator<T> = Option<nat> -> Call<T>

  /**
   * The Vulkan specification's contract for the idiom: when the first call
   * succeeds, a second call given a buffer of the count it stored writes at
   * most that many elements.
   */
  predicate Conforms<T>(enumerate: Enumerator<T>) {
    var first := enumerate(None);
    first.code == ffi.Result.Success ==> ffi.Fits(enumerate(Some(first.written.count)).written, first.written.count)
  }

  /** The elements a call reports: as many of those it wrote as its count says. */
  function Listed<T>(w: ffi.Written<T>): seq<T>
    requires w.count <= |w.items|
  {
    w.items[..w.count]
  }

  /**
   * `Vec::with_capacity(capacity)`, the second call writing into it in place,
   * then `set_len(count)` with the count that call stored.
   */
  method FillBuffer<T(0)>(enumerate: Enumerator<T>, capacity: nat) returns (code: ffi.Result, v: seq<T>)
    requires ffi.Fits(enumerate(Some(capacity)).written, capacity)
    ensures code == enumerate(Some(capacity)).code
    ensures |v| == enumerate(Some(capacity)).written.count <= capacity
    ensures v == Listed(enumerate(Some(capacity)).written)
  {
    var call := enumerate(Some(capacity));
    var buffer := new T[capacity];
    for i := 0 to call.written.count
      invariant buffer[..i] == call.written.items[..i]
    {
      buffer[i] := call.written.items[i];
    }
    code, v := call.code, buffer[..call.written.count];
  }
}
