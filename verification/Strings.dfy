/** The comparison operators of the String wrapper, which may hold no string at all. */
module Strings {
  import opened FileTrees

  datatype Text = Unset | Set(bytes: seq<byte>)

  /** operator< of std::string. */
  predicate Lex(a: seq<byte>, b: seq<byte>) {
    b != [] && (a == [] || a[0] < b[0] || (a[0] == b[0] && Lex(a[1..], b[1..])))
  }

  /** The byte strings agree before k, and a has ended there or has the smaller byte. */
  predicate DiffersAt(a: seq<byte>, b: seq<byte>, k: nat) {
    k <= |a| && k < |b| && a[..k] == b[..k] && (k == |a| || a[k] < b[k])
  }

  lemma SharedHead(a: seq<byte>, b: seq<byte>, k: nat)
    requires DiffersAt(a, b, k)
    ensures k > 0 ==> a[0] == b[0]
  {
    if k > 0 {
      assert a[..k][0] == b[..k][0];
    }
  }

  /** Lex is decided by the first difference. */
  lemma {:induction false} FirstDifference(a: seq<byte>, b: seq<byte>)
    ensures Lex(a, b) <==> exists k: nat :: DiffersAt(a, b, k)
  {
    if b == [] || a == [] || a[0] != b[0] {
      assert b != [] && (a == [] || a[0] < b[0]) ==> DiffersAt(a, b, 0);
      forall k: nat | DiffersAt(a, b, k) ensures k == 0 {
        SharedHead(a, b, k);
      }
    } else {
      FirstDifference(a[1..], b[1..]);
      forall k: nat | DiffersAt(a[1..], b[1..], k) ensures DiffersAt(a, b, k + 1) {
        assert a[..k + 1] == [a[0]] + a[1..][..k] && b[..k + 1] == [b[0]] + b[1..][..k];
      }
      forall k: nat | DiffersAt(a, b, k) ensures k > 0 && DiffersAt(a[1..], b[1..], k - 1) {
        if k > 0 {
          assert a[..k][1..] == a[1..][..k - 1] && b[..k][1..] == b[1..][..k - 1];
        }
      }
    }
  }

  lemma {:induction false} LexOrder(a: seq<byte>, b: seq<byte>, c: seq<byte>)
    ensures !(Lex(a, b) && Lex(b, a))
    ensures Lex(a, b) && Lex(b, c) ==> Lex(a, c)
    ensures !Lex(a, b) && !Lex(b, a) ==> a == b
    ensures !Lex(a, a)
  {
    if a != [] {
      LexOrder(a[1..], if b == [] then [] else b[1..], if c == [] then [] else c[1..]);
      assert b != [] && a[0] == b[0] && a[1..] == b[1..] ==> a == [a[0]] + a[1..] == [b[0]] + b[1..] == b;
    }
  }

  /** operator<: an unset string comes after every set one. */
  predicate Less(a: Text, b: Text) {
    if a.Set? && b.Set? then Lex(a.bytes, b.bytes) else a.Set? && b.Unset?
  }

  predicate Greater(a: Text, b: Text) {
    Less(b, a)
  }

  predicate LessOrEqual(a: Text, b: Text) {
    !Greater(a, b)
  }

  predicate GreaterOrEqual(a: Text, b: Text) {
    !Less(a, b)
  }

  /** operator==: nothing equals an unset string. */
  predicate Equal(a: Text, b: Text) {
    a.Set? && b.Set? && a.bytes == b.bytes
  }

  /**
    The order of set strings, by a shared beginning p: what ends there comes first, and otherwise
    the smaller next byte does.
   */
  lemma {:induction false} LexByNextByte(p: seq<byte>, x: byte, y: byte, a: seq<byte>, b: seq<byte>)
    ensures Less(Set(p), Set(p + [x] + a)) && !Less(Set(p + [x] + a), Set(p))
    ensures x < y ==> Less(Set(p + [x] + a), Set(p + [y] + b)) && !Less(Set(p + [y] + b), Set(p + [x] + a))
  {
    if p != [] {
      LexByNextByte(p[1..], x, y, a, b);
      assert (p + [x] + a)[1..] == p[1..] + [x] + a && (p + [y] + b)[1..] == p[1..] + [y] + b;
    }
  }

  /** operator<= is a total preorder with operator< as its strict part, and unset is its greatest element. */
  lemma TotalPreorder(a: Text, b: Text, c: Text)
    ensures LessOrEqual(a, b) || LessOrEqual(b, a)
    ensures LessOrEqual(a, b) && LessOrEqual(b, c) ==> LessOrEqual(a, c)
    ensures Less(a, b) <==> LessOrEqual(a, b) && !LessOrEqual(b, a)
    ensures Less(a, b) && Less(b, c) ==> Less(a, c)
    ensures LessOrEqual(a, Unset)
    ensures LessOrEqual(Unset, a) <==> a == Unset
    ensures LessOrEqual(a, b) <==> Less(a, b) || a == b
    ensures GreaterOrEqual(a, b) <==> LessOrEqual(b, a)
    ensures Greater(a, b) <==> GreaterOrEqual(a, b) && a != b
  {
    if a.Set? && b.Set? && c.Set? {
      LexOrder(a.bytes, b.bytes, c.bytes);
      LexOrder(c.bytes, b.bytes, a.bytes);
      LexOrder(b.bytes, a.bytes, c.bytes);
      LexOrder(c.bytes, a.bytes, b.bytes);
    } else if a.Set? && b.Set? {
      LexOrder(a.bytes, b.bytes, b.bytes);
    }
  }

  /** Neither string is less exactly when operator== says so, or when both are unset, where it says no. */
  lemma NeitherLess(a: Text, b: Text)
    ensures !Less(a, b) && !Less(b, a) <==> Equal(a, b) || (a.Unset? && b.Unset?)
    ensures !(Equal(a, b) && a.Unset? && b.Unset?)
    ensures LessOrEqual(a, b) && GreaterOrEqual(a, b) <==> a == b
  {
    if a.Set? && b.Set? {
      LexOrder(a.bytes, b.bytes, a.bytes);
    }
  }

  /** A wrapper: its text and its lock. */
  class String {
    var text: Text
    var lock: bool

    constructor (text: Text)
      ensures this.text == text && !lock
    {
      this.text, lock := text, false;
    }

    /**
      The two guards of a comparison. Compared with itself a wrapper waits for its own lock:
      got is false, and the comparison never returns.
     */
    method LockBoth(other: String) returns (got: bool)
      requires !lock && !other.lock
      modifies this`lock, other`lock
      ensures got <==> this != other
      ensures lock && other.lock
    {
      lock := true;
      if other.lock {
        return false;
      }
      other.lock := true;
      return true;
    }

    method UnlockBoth(other: String)
      modifies this`lock, other`lock
      ensures !lock && !other.lock
    {
      other.lock := false;
      lock := false;
    }

    method IsLess(other: String) returns (done: bool, r: bool)
      requires !lock && !other.lock
      modifies this`lock, other`lock
      ensures done <==> this != other
      ensures done ==> !lock && !other.lock && r == Less(text, other.text)
    {
      r := false;
      done := LockBoth(other);
      if !done {
        return;
      }
      if text.Set? && other.text.Set? {
        r := Lex(text.bytes, other.text.bytes);
      } else if text.Set? {
        r := true;
      } else if other.text.Set? {
        r := false;
      }
      UnlockBoth(other);
    }

    method IsLessOrEqual(other: String) returns (done: bool, r: bool)
      requires !lock && !other.lock
      modifies this`lock, other`lock
      ensures done <==> this != other
      ensures done ==> !lock && !other.lock && r == LessOrEqual(text, other.text)
    {
      done, r := other.IsLess(this);
      r := !r;
    }

    /** operator>, by way of the other one's <. */
    method IsGreater(other: String) returns (done: bool, r: bool)
      requires !lock && !other.lock
      modifies this`lock, other`lock
      ensures done <==> this != other
      ensures done ==> !lock && !other.lock && r == Greater(text, other.text)
    {
      done, r := other.IsLess(this);
    }

    method IsGreaterOrEqual(other: String) returns (done: bool, r: bool)
      requires !lock && !other.lock
      modifies this`lock, other`lock
      ensures done <==> this != other
      ensures done ==> !lock && !other.lock && r == GreaterOrEqual(text, other.text)
    {
      done, r := IsLess(other);
      r := !r;
    }

    method IsEqual(other: String) returns (done: bool, r: bool)
      requires !lock && !other.lock
      modifies this`lock, other`lock
      ensures done <==> this != other
      ensures done ==> !lock && !other.lock && r == Equal(text, other.text)
    {
      r := false;
      done := LockBoth(other);
      if !done {
        return;
      }
      if text.Set? && other.text.Set? {
        r := text.bytes == other.text.bytes;
      }
      UnlockBoth(other);
    }
  }
}
