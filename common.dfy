/** Vocabulary shared by the whole model: optional values and results, Go
    `error` values with `%w` wrapping, bytes, and the prefix, suffix and
    trimming operations of Go's `strings` and `bytes` packages. */
module Common {

  datatype Option<+T> = None | Some(value: T)

  datatype Result<+T, +E> = Success(value: T) | Failure(error: E)

  /** A Go `error`: a plain message (`errors.New`), or a message wrapped by
      `fmt.Errorf("<context>%w", cause)`. */
  datatype Error = Error(text: string) | Wrapped(context: string, cause: Error)
  {
    /** What `err.Error()` prints. */
    function Message(): string
    {
      match this
      case Error(t) => t
      case Wrapped(c, e) => c + e.Message()
    }
  }

  newtype byte = b: int | 0 <= b < 256

  /** The bytes of an ASCII string literal. */
  function Ascii(s: string): (r: seq<byte>)
    requires forall i :: 0 <= i < |s| ==> s[i] as int < 128
    ensures |r| == |s|
    ensures forall i :: 0 <= i < |s| ==> r[i] as int == s[i] as int
  {
    seq(|s|, i requires 0 <= i < |s| => s[i] as int as byte)
  }

  /** Go's `string(data)`: one character per byte, nothing decoded. */
  function ByteString(data: seq<byte>): (r: string)
    ensures |r| == |data|
    ensures forall i :: 0 <= i < |data| ==> r[i] as int == data[i] as int
  {
    seq(|data|, i requires 0 <= i < |data| => data[i] as int as char)
  }

  predicate HasPrefix<T(==)>(s: seq<T>, prefix: seq<T>)
  {
    |prefix| <= |s| && s[..|prefix|] == prefix
  }

  predicate HasSuffix<T(==)>(s: seq<T>, suffix: seq<T>)
  {
    |suffix| <= |s| && s[|s| - |suffix|..] == suffix
  }

  /** `strings.TrimLeft(s, cutset)` / the left half of `bytes.TrimSpace`:
      drops the longest prefix made only of elements of `cut`. */
  function TrimLeftSet<T(==)>(s: seq<T>, cut: set<T>): (r: seq<T>)
    ensures |r| <= |s| && r == s[|s| - |r|..]
    ensures forall k :: 0 <= k < |s| - |r| ==> s[k] in cut
    ensures r == [] || r[0] !in cut
    decreases |s|
  {
    if |s| > 0 && s[0] in cut then
      var r := TrimLeftSet(s[1..], cut);
      assert forall k :: 1 <= k < |s| - |r| ==> s[k] == s[1..][k - 1];
      r
    else
      s
  }

  /** `strings.TrimRight(s, cutset)` / the right half of `bytes.TrimSpace`:
      drops the longest suffix made only of elements of `cut`. */
  function TrimRightSet<T(==)>(s: seq<T>, cut: set<T>): (r: seq<T>)
    ensures |r| <= |s| && r == s[..|r|]
    ensures forall k :: |r| <= k < |s| ==> s[k] in cut
    ensures r == [] || r[|r| - 1] !in cut
    decreases |s|
  {
    if |s| > 0 && s[|s| - 1] in cut then
      var r := TrimRightSet(s[..|s| - 1], cut);
      assert forall k :: |r| <= k < |s| - 1 ==> s[k] == s[..|s| - 1][k];
      r
    else
      s
  }

  /** Any suffix that has the three properties of `TrimLeftSet` is its result:
      the contract above determines the function. */
  lemma {:induction false} TrimLeftSetUnique<T>(s: seq<T>, cut: set<T>, r: seq<T>)
    requires |r| <= |s| && r == s[|s| - |r|..]
    requires forall k :: 0 <= k < |s| - |r| ==> s[k] in cut
    requires r == [] || r[0] !in cut
    ensures TrimLeftSet(s, cut) == r
  {
    var t := TrimLeftSet(s, cut);
    assert r != [] ==> s[|s| - |r|] == r[0];
    assert t != [] ==> s[|s| - |t|] == t[0];
  }

  lemma ConcatAssociative<T>(a: seq<T>, b: seq<T>, c: seq<T>)
    ensures a + (b + c) == (a + b) + c
  {
  }
}
