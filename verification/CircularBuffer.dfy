// A circular buffer of characters: an array, the position of the first element and their number.
module CircularBuffer {
  class CircularBuffer {
    var data: array<char>
    var first: nat
    var count: nat

    ghost predicate Valid()
      reads this
    {
      count <= data.Length && (data.Length > 0 ==> first < data.Length) && (data.Length == 0 ==> first == 0)
    }

    // Position in the array of element i.
    function At(i: nat): (k: nat)
      requires Valid() && i < data.Length
      reads this
      ensures k < data.Length
      ensures k == if first + i < data.Length then first + i else first + i - data.Length
    {
      if first + i < data.Length then first + i else first + i - data.Length
    }

    ghost function Contents(): (s: seq<char>)
      requires Valid()
      reads this, data
      ensures |s| == count
      ensures forall i | 0 <= i < count :: s[i] == data[At(i)]
    {
      seq(count, i requires 0 <= i < count && Valid() reads this, data => data[At(i)])
    }

    constructor ()
      ensures Valid() && fresh(data) && data.Length == 0 && Contents() == []
    {
      data := new char[0];
      first, count := 0, 0;
    }

    method SetCapacity(capacity: nat)
      requires Valid() && count == 0
      modifies this
      ensures Valid() && fresh(data) && data.Length == capacity && Contents() == []
    {
      data := new char[capacity];
      first, count := 0, 0;
    }

    method Clear()
      requires Valid()
      modifies this`first, this`count
      ensures Valid() && Contents() == []
    {
      first, count := 0, 0;
    }

    method Get(i: nat) returns (c: char)
      requires Valid() && i < count
      ensures c == Contents()[i]
    {
      c := data[At(i)];
    }

    // A full buffer drops its oldest element to make room.
    method PushBack(c: char)
      requires Valid()
      modifies this`first, this`count, data
      ensures Valid()
      ensures Contents() == if data.Length == 0 then []
                            else if old(count) < data.Length then old(Contents()) + [c]
                            else old(Contents())[1..] + [c]
      ensures old(count) < data.Length ==>
                first == old(first) && forall i | 0 <= i < old(count) :: data[At(i)] == old(data[At(i)])
    {
      if data.Length == 0 {
        return;
      }
      if count < data.Length {
        data[At(count)] := c;
        count := count + 1;
      } else {
        data[first] := c;
        first := if first + 1 == data.Length then 0 else first + 1;
      }
    }

    method EraseBegin(n: nat)
      requires Valid() && n <= count
      modifies this`first, this`count
      ensures Valid() && Contents() == old(Contents())[n..]
    {
      if n > 0 {
        first := if first + n < data.Length then first + n else first + n - data.Length;
        count := count - n;
      }
    }

    // Afterwards the elements stand at the start of the array, one after the other.
    method Linearize()
      requires Valid()
      modifies this`first, data
      ensures Valid() && first == 0 && Contents() == old(Contents())
      ensures data[..count] == Contents()
    {
      var copy := new char[count];
      for i := 0 to count
        modifies copy
        invariant forall j | 0 <= j < i :: copy[j] == Contents()[j]
      {
        copy[i] := data[At(i)];
      }
      ghost var s := Contents();
      forall i | 0 <= i < count {
        data[i] := copy[i];
      }
      first := 0;
      assert Contents() == s;
    }
  }
}
