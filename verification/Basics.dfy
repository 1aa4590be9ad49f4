/** Vocabulary shared by every module: bytes, the Rust option/result/poll types, and byte-sequence helpers. */
module Basics {

  type byte = b: int | 0 <= b < 0x100

  type Bytes = seq<byte>

  const NEWLINE: byte := 10

  datatype Option<+T> = None | Some(value: T)

  datatype Result<+T, +E> = Ok(value: T) | Err(error: E)

  /** `std::task::Poll`: a poll either has to be repeated later or has produced its value. */
  datatype Poll<+T> = Pending | Ready(value: T)

  function Min(a: nat, b: nat): nat {
    if a <= b then a else b
  }

  /** The position of the first occurrence of `b`, as `iter().position` computes it. */
  function IndexOf(s: Bytes, b: byte): (r: Option<nat>)
    ensures r.Some? ==> r.value < |s| && s[r.value] == b && forall j | 0 <= j < r.value :: s[j] != b
    ensures r.None? ==> forall j | 0 <= j < |s| :: s[j] != b
  {
    if s == [] then None
    else if s[0] == b then Some(0)
    else
      match IndexOf(s[1..], b)
      case None => None
      case Some(i) => Some(i + 1)
  }

  /** `IndexOf` is determined by what precedes the first occurrence. */
  lemma {:induction false} IndexOfAt(s: Bytes, b: byte, i: nat)
    requires i < |s| && s[i] == b && forall j | 0 <= j < i :: s[j] != b
    ensures IndexOf(s, b) == Some(i)
  {
    if i > 0 {
      IndexOfAt(s[1..], b, i - 1);
    }
  }

  function Concat(parts: seq<Bytes>): Bytes {
    if parts == [] then [] else parts[0] + Concat(parts[1..])
  }

  lemma {:induction false} ConcatAppend(a: seq<Bytes>, b: seq<Bytes>)
    ensures Concat(a + b) == Concat(a) + Concat(b)
  {
    if a == [] {
      assert a + b == b;
    } else {
      assert (a + b)[1..] == a[1..] + b;
      ConcatAppend(a[1..], b);
    }
  }
}
