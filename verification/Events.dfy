/** Stream events exchanged between the readers, the backends and the consumers. */
module Events {

  /** One byte read from the child's stdout or stderr. */
  newtype byte = x: int | 0 <= x < 256

  const NEWLINE: byte := 10

  type Bytes = seq<byte>

  datatype Option<+T> = None | Some(value: T)

  /** `Eof` and `ReadError` are terminal; the error is an opaque code. */
  datatype StreamEvent =
    | Chunk(bytes: Bytes)
    | Gap
    | Eof
    | ReadError(error: int)
  {
    predicate IsTerminal() {
      Eof? || ReadError?
    }
  }

  function Min(a: nat, b: nat): nat {
    if a < b then a else b
  }

  lemma Assoc<T>(a: seq<T>, b: seq<T>, c: seq<T>)
    ensures (a + b) + c == a + (b + c)
  {
  }

  lemma SplitAt<T>(s: seq<T>, i: nat)
    requires i < |s|
    ensures s == s[..i] + [s[i]] + s[i+1..]
  {
  }

  /** The bytes carried by the chunk events of `events`, in order. */
  function Payload(events: seq<StreamEvent>): (bytes: Bytes)
  {
    if events == [] then []
    else (if events[0].Chunk? then events[0].bytes else []) + Payload(events[1..])
  }

  lemma {:induction false} PayloadAppend(a: seq<StreamEvent>, b: seq<StreamEvent>)
    ensures Payload(a + b) == Payload(a) + Payload(b)
  {
    if a == [] {
      assert a + b == b;
    } else {
      PayloadAppend(a[1..], b);
      assert (a + b)[1..] == a[1..] + b;
      Assoc(if a[0].Chunk? then a[0].bytes else [], Payload(a[1..]), Payload(b));
    }
  }

  /** All elements of a sequence of sequences, in order. */
  function Concat<T>(parts: seq<seq<T>>): (whole: seq<T>)
  {
    if parts == [] then [] else parts[0] + Concat(parts[1..])
  }

  lemma {:induction false} ConcatAppend<T>(a: seq<seq<T>>, b: seq<seq<T>>)
    ensures Concat(a + b) == Concat(a) + Concat(b)
  {
    if a == [] {
      assert a + b == b;
    } else {
      ConcatAppend(a[1..], b);
      assert (a + b)[1..] == a[1..] + b;
      Assoc(a[0], Concat(a[1..]), Concat(b));
    }
  }
}
