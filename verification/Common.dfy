/** Small general-purpose types and sequence facts shared by the other modules. */
module Common {
  datatype Option<+T> = None | Some(value: T) {
    function GetOr(fallback: T): T {
      match this
      case Some(v) => v
      case None => fallback
    }
  }

  datatype Result<+T, +E> = Ok(value: T) | Err(error: E)

  /** A Go map that may be nil.  Nil and empty differ only where the code tests for nil. */
  type StringMap = Option<map<string, string>>

  function Entries(m: StringMap): map<string, string> {
    m.GetOr(map[])
  }

  /** Go's assignment `m[k] = v` after making a map when `m` is nil. */
  function Put(m: StringMap, k: string, v: string): StringMap {
    Some(Entries(m)[k := v])
  }

  ghost predicate Distinct<T(!new)>(s: seq<T>) {
    forall i, j :: 0 <= i < j < |s| ==> s[i] != s[j]
  }

  lemma EmptyOrMember<T>(s: seq<T>)
    ensures s == [] || exists x :: x in s
  {
    if s != [] {
      assert s[0] in s;
    }
  }
}
