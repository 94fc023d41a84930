/** Go values that share memory: cells behind pointers and maps, and slices, which are windows onto arrays. */
module GoHeap {
  /** A cell that several places may refer to. */
  class Ref<T> {
    var value: T

    constructor (initial: T)
      ensures value == initial
    {
      value := initial;
    }
  }

  /** The first `len` elements of an array; the rest is spare capacity, which another slice may be using. */
  datatype Slice<T> = Slice(data: array<T>, len: nat) {
    predicate Valid() {
      len <= data.Length
    }

    function Elements(): seq<T>
      requires Valid()
      reads data
    {
      data[..len]
    }
  }

  /** A slice literal. */
  method Literal<T>(elements: seq<T>) returns (s: Slice<T>)
    ensures s.Valid() && s.Elements() == elements && fresh(s.data)
  {
    var data := new T[|elements|](i requires 0 <= i < |elements| => elements[i]);
    s := Slice(data, |elements|);
  }

  /** Go's append: written into the spare capacity when that is enough, else into a new array of any larger size. */
  method Append<T>(s: Slice<T>, more: seq<T>) returns (r: Slice<T>)
    requires s.Valid()
    modifies s.data
    ensures r.Valid() && r.Elements() == old(s.Elements()) + more
    ensures r.data == s.data || fresh(r.data)
    ensures s.Elements() == old(s.Elements())
  {
    var n := s.len + |more|;
    if n <= s.data.Length {
      forall i | 0 <= i < |more| {
        s.data[s.len + i] := more[i];
      }
      r := Slice(s.data, n);
    } else {
      var filler, elements := more[0], s.Elements() + more;
      var capacity: nat :| capacity >= n;
      var data := new T[capacity](i => if 0 <= i < |elements| then elements[i] else filler);
      r := Slice(data, n);
    }
  }
}
