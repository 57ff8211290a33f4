/**
 * `CString::new(name).unwrap()`, as the wrapper applies it to application,
 * engine, layer and extension names before handing them to the native side.
 */
module CStrings {
  import opened Outcome
  import opened Bits

  const NUL: char := '\0'

  /**
   * `CString::new(s).unwrap()`: a string with an interior NUL is refused and
   * the `unwrap` panics; any other string gains the terminating NUL.
   */
  function CStringNew(s: string): (r: Run<string>)
    ensures r.Aborts? <==> NUL in s
    ensures r.Aborts? ==> r.reason == UnwrapNone
    ensures r.Returns? ==> |r.value| == |s| + 1 && r.value[|s|] == NUL && NUL !in r.value[..|s|]
  {
    if NUL in s then Aborts(UnwrapNone) else Returns(s + [NUL])
  }

  /** `CStr::to_bytes`: the characters before the terminator. */
  function ToBytes(c: string): string
    requires |c| > 0
  {
    c[..|c| - 1]
  }

  /** Reading a converted name back gives the name. */
  lemma CStringReadsBack(s: string)
    requires NUL !in s
    ensures CStringNew(s).Returns? && ToBytes(CStringNew(s).value) == s
  {
    assert CStringNew(s).value[..|s|] == s;
  }

  /** Whether some name of the list holds an interior NUL. */
  predicate AnyNul(names: seq<string>) {
    exists i :: 0 <= i < |names| && NUL in names[i]
  }

  /** Collecting `CString::new(name).unwrap()` over a list: each name gains its terminator. */
  function {:induction false} CStringsOf(names: seq<string>): (r: Run<seq<string>>)
    ensures r.Aborts? <==> AnyNul(names)
    ensures r.Aborts? ==> r.reason == UnwrapNone
    ensures r.Returns? ==>
      |r.value| == |names| && forall i :: 0 <= i < |names| ==> r.value[i] == names[i] + [NUL]
  {
    if names == [] then Returns([])
    else
      var first :- CStringNew(names[0]);
      var rest :- CStringsOf(names[1..]);
      assert !AnyNul(names) by {
        forall i | 0 <= i < |names| ensures NUL !in names[i] {
          if i > 0 { assert names[i] == names[1..][i - 1]; }
        }
      }
      Returns([first] + rest)
  }

  /**
   * An optional name list as the native count and array pointer: count 0 and
   * a null pointer when the list is absent, otherwise the list's length as a
   * `u32` and the converted names.
   */
  function NameArray(names: Option<seq<string>>): (r: Run<(u32, Option<seq<string>>)>)
    ensures names.None? ==> r == Returns((0, None))
    ensures r.Aborts? <==> names.Some? && AnyNul(names.value)
    ensures r.Aborts? ==> r.reason == UnwrapNone
    ensures r.Returns? && names.Some? ==>
      && r.value.0 == TruncU32(|names.value|)
      && r.value.1.Some? && |r.value.1.value| == |names.value|
      && forall i :: 0 <= i < |names.value| ==> r.value.1.value[i] == names.value[i] + [NUL]
  {
    match names
    case None => Returns((0, None))
    case Some(list) =>
      var converted :- CStringsOf(list);
      Returns((TruncU32(|converted|), Some(converted)))
  }
}
