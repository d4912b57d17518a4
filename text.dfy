/** Python's `sep.join(parts)` on strings, with the facts the rest of the model needs. */
module Text {

  /** The parts in order, with `sep` between each two neighbours. */
  function Join(sep: string, parts: seq<string>): (r: string)
    ensures |parts| > 0 ==> parts[0] <= r
    ensures |parts| > 1 ==> parts[0] + sep <= r
    decreases |parts|
  {
    if |parts| == 0 then ""
    else if |parts| == 1 then parts[0]
    else parts[0] + sep + Join(sep, parts[1..])
  }

  /** Sum of the lengths of the parts. */
  function TotalLength(parts: seq<string>): nat
    decreases |parts|
  {
    if |parts| == 0 then 0 else |parts[0]| + TotalLength(parts[1..])
  }

  /** A join is exactly as long as its parts plus one separator per gap. */
  lemma {:induction false} JoinLength(sep: string, parts: seq<string>)
    requires |parts| > 0
    ensures |Join(sep, parts)| == TotalLength(parts) + (|parts| - 1) * |sep|
    decreases |parts|
  {
    if |parts| > 1 {
      JoinLength(sep, parts[1..]);
    }
  }

  /** With a non-empty separator, a join is empty only for no parts or one empty part. */
  lemma JoinIsEmpty(sep: string, parts: seq<string>)
    requires sep != ""
    ensures Join(sep, parts) == "" <==> |parts| == 0 || (|parts| == 1 && parts[0] == "")
  {
  }

  /** Joining the first `k` parts gives a prefix of joining all of them. */
  lemma {:induction false} JoinPrefix(sep: string, parts: seq<string>, k: nat)
    requires k <= |parts|
    ensures Join(sep, parts[..k]) <= Join(sep, parts)
    decreases |parts|
  {
    if k == 0 {
    } else if k == 1 {
      assert parts[..1] == [parts[0]];
    } else {
      var rest := parts[1..];
      assert parts[..k][1..] == rest[..k - 1];
      JoinPrefix(sep, rest, k - 1);
      var head := parts[0] + sep;
      assert Join(sep, parts[..k]) == head + Join(sep, rest[..k - 1]);
      assert Join(sep, parts) == head + Join(sep, rest);
    }
  }
}
