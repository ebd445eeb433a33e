/** Plain key-to-value records exchanged by operators, and the error and
    result types of the vectorising transform. */
module Values {

  /** An untyped value as it crosses an operator boundary: a scalar, a list
      or a nested record (a Python `dict`). */
  datatype Value =
    | Str(s: string)
    | Int(i: int)
    | Null
    | List(items: seq<Value>)
    | Dict(fields: map<string, Value>)

  /** An input or output record: field name to value. */
  type Record = map<string, Value>

  datatype Option<+T> = None | Some(value: T)

  /** The errors a vectorised call can end in. */
  datatype Error =
    | InconsistentBatchSizes(sizes: set<nat>)  // the Python ValueError("Inconsistent batch sizes ...")
    | Raised(message: string)                  // whatever the wrapped operator raised

  datatype Result<+T> = Ok(value: T) | Err(error: Error)

  /** `d.get(key, default)`. */
  function GetOr(r: Record, key: string, default: Value): (v: Value)
  {
    if key in r then r[key] else default
  }

  /** `[f(x) for x in xs]` */
  function MapSeq<A, B>(f: A -> B, xs: seq<A>): (ys: seq<B>)
    ensures |ys| == |xs| && forall i :: 0 <= i < |xs| ==> ys[i] == f(xs[i])
  {
    seq(|xs|, i requires 0 <= i < |xs| => f(xs[i]))
  }

  lemma MapSeqConcat<A, B>(f: A -> B, xs: seq<A>, ys: seq<A>)
    ensures MapSeq(f, xs + ys) == MapSeq(f, xs) + MapSeq(f, ys)
  {
  }

  lemma MapSeqPrefix<A, B>(f: A -> B, xs: seq<A>, n: nat)
    requires n <= |xs|
    ensures MapSeq(f, xs)[..n] == MapSeq(f, xs[..n])
  {
  }

  /** A record with the single key `key` is the one-entry map. */
  lemma OneField(m: Record, key: string, v: Value)
    requires m.Keys == {key} && m[key] == v
    ensures m == map[key := v]
  {
  }
}
