/**
 The scanner's queue of tokens: a growing array whose front is consumed and into whose middle tokens may
 still be inserted.  When the array is full the queue moves to its beginning before it grows.
 */
module TokenQueue {
  /** The queue after inserting `t` at `pos`, or at the end when `pos` is negative. */
  function Inserted<T>(q: seq<T>, pos: int, t: T): (r: seq<T>)
    requires pos <= |q|
    ensures |r| == |q| + 1
  {
    if pos < 0 then q + [t] else q[..pos] + [t] + q[pos..]
  }

  ghost predicate Shifted<T>(q: seq<T>, q': seq<T>, pos: nat, t: T) {
    && |q'| == |q|
    && forall k | 0 <= k < |q| :: q'[k] == if k < pos then q[k] else if k == pos then t else q[k - 1]
  }

  lemma ShiftedIsInserted<T>(q: seq<T>, q': seq<T>, pos: nat, t: T)
    requires pos < |q| && Shifted(q, q', pos, t)
    ensures q' == Inserted(q[..|q| - 1], pos, t)
  {
    var init := q[..|q| - 1];
    var r := init[..pos] + [t] + init[pos..];
    forall k | 0 <= k < |r| ensures r[k] == q'[k] {
      assert q'[k] == if k < pos then q[k] else if k == pos then t else q[k - 1];
      if k > pos { assert r[k] == init[pos..][k - pos - 1] == init[k - 1]; }
    }
  }

  class Queue<T> {
    var buf: array<T>
    var len: nat
    var head: nat

    ghost predicate Valid()
      reads this
    {
      head <= len <= buf.Length
    }

    /** The tokens not yet delivered. */
    ghost function Pending(): seq<T>
      requires Valid()
      reads this, buf
    {
      buf[head..len]
    }

    constructor ()
      ensures Valid() && Pending() == [] && fresh(buf)
    {
      buf := new T[0];
      len, head := 0, 0;
    }

    /** Move the pending tokens to the beginning of the array. */
    method Compact()
      requires Valid()
      modifies this`len, this`head, buf
      ensures Valid() && Pending() == old(Pending()) && head == 0 && len == old(len) - old(head)
    {
      var n := len - head;
      var a, h := buf, head;
      forall i | 0 <= i < n { a[i] := a[h + i]; }
      len, head := n, 0;
    }

    /** Append, growing the array when it is full. */
    method Append(t: T)
      requires Valid()
      modifies this`buf, this`len, buf
      ensures Valid() && head == old(head) && len == old(len) + 1
      ensures buf == old(buf) || fresh(buf)
      ensures Pending() == old(Pending()) + [t]
    {
      if len == buf.Length {
        var a, old_ := new T[2 * len + 1](_ => t), buf;
        forall i | 0 <= i < len { a[i] := old_[i]; }
        buf := a;
      } else {
        buf[len] := t;
      }
      len := len + 1;
    }

    method Insert(pos: int, t: T)
      requires Valid() && pos <= len - head
      modifies this, buf
      ensures Valid() && (buf == old(buf) || fresh(buf))
      ensures Pending() == Inserted(old(Pending()), pos, t)
    {
      if head > 0 && len == buf.Length {
        Compact();
      }
      Append(t);
      if pos < 0 {
        return;
      }
      ghost var q := Pending();
      Rotate(pos, t);
      ShiftedIsInserted(q, Pending(), pos, t);
      assert q[..|q| - 1] == old(Pending());
    }

    /** Shift the elements from `pos` right by one, over the last, and store `t` at `pos`. */
    method Rotate(pos: nat, t: T)
      requires Valid() && pos < len - head
      modifies buf
      ensures Valid()
      ensures Shifted(old(Pending()), Pending(), pos, t)
    {
      var a, from := buf, head + pos;
      forall i | from < i < len { a[i] := a[i - 1]; }
      a[from] := t;
      forall k | 0 <= k < len - head
        ensures Pending()[k] == if k < pos then old(Pending())[k] else if k == pos then t else old(Pending())[k - 1]
      {
        assert Pending()[k] == a[head + k];
      }
    }

    method Dequeue() returns (t: T)
      requires Valid() && Pending() != []
      modifies this`head
      ensures Valid()
      ensures [t] + Pending() == old(Pending())
    {
      t := buf[head];
      head := head + 1;
    }
  }
}
