/**
 * Parsing the configured phone-id list: Python's `s.split(',')` followed by
 * keeping only the entries of the provider's fixed length.
 */
module PhoneIds {

  /** Every phone id the provider accepts has exactly this many characters. */
  const PhoneIdLength := 11

  /** Python's `s.split(',')`: always at least one piece, empty pieces kept. */
  function Split(s: string): (pieces: seq<string>)
    ensures |pieces| >= 1
    decreases |s|
  {
    if s == [] then [""]
    else
      var rest := Split(s[1..]);
      if s[0] == ',' then [""] + rest
      else [[s[0]] + rest[0]] + rest[1..]
  }

  /** `','.join(pieces)`, the inverse of Split. */
  function Join(pieces: seq<string>): string
    requires |pieces| >= 1
    decreases |pieces|
  {
    if |pieces| == 1 then pieces[0] else pieces[0] + "," + Join(pieces[1..])
  }

  predicate CommaFree(s: string) {
    forall i :: 0 <= i < |s| ==> s[i] != ','
  }

  /** Splitting then joining gives the string back, and no piece holds a comma. */
  lemma {:induction false} JoinSplit(s: string)
    ensures Join(Split(s)) == s
    ensures forall k :: 0 <= k < |Split(s)| ==> CommaFree(Split(s)[k])
    decreases |s|
  {
    if s != [] {
      JoinSplit(s[1..]);
      var rest := Split(s[1..]);
      if s[0] == ',' {
        assert Split(s) == [""] + rest;
        assert Join(Split(s)) == "" + "," + Join(rest);
        assert s == [s[0]] + s[1..];
      } else {
        var first := [s[0]] + rest[0];
        assert Split(s) == [first] + rest[1..];
        forall k | 0 <= k < |Split(s)| ensures CommaFree(Split(s)[k]) {
          if k == 0 {
            assert CommaFree(rest[0]);
          } else {
            assert Split(s)[k] == rest[k];
          }
        }
        if |rest| == 1 {
          assert Join(Split(s)) == first;
          assert s == [s[0]] + s[1..];
        } else {
          assert Join(rest) == rest[0] + "," + Join(rest[1..]);
          assert Join(Split(s)) == first + "," + Join(rest[1..]);
          assert s == [s[0]] + s[1..];
        }
      }
    }
  }

  /** Splitting a comma-free string gives that string alone. */
  lemma {:induction false} SplitCommaFree(s: string)
    requires CommaFree(s)
    ensures Split(s) == [s]
    decreases |s|
  {
    if s != [] {
      SplitCommaFree(s[1..]);
      assert [s[0]] + s[1..] == s;
    }
  }

  /** Splitting `a + "," + b` splits at that comma when `a` has none. */
  lemma {:induction false} SplitAtComma(a: string, b: string)
    requires CommaFree(a)
    ensures Split(a + "," + b) == [a] + Split(b)
    decreases |a|
  {
    if a == [] {
      assert a + "," + b == [','] + b;
      assert (a + "," + b)[1..] == b;
    } else {
      assert (a + "," + b)[1..] == a[1..] + "," + b;
      SplitAtComma(a[1..], b);
      assert [a[0]] + a[1..] == a;
    }
  }

  /** Joining comma-free pieces then splitting gives the pieces back. */
  lemma {:induction false} SplitJoin(pieces: seq<string>)
    requires |pieces| >= 1
    requires forall k :: 0 <= k < |pieces| ==> CommaFree(pieces[k])
    ensures Split(Join(pieces)) == pieces
    decreases |pieces|
  {
    if |pieces| == 1 {
      SplitCommaFree(pieces[0]);
    } else {
      SplitJoin(pieces[1..]);
      SplitAtComma(pieces[0], Join(pieces[1..]));
      assert [pieces[0]] + pieces[1..] == pieces;
    }
  }

  /** The entries of the provider's id length, in their original order. */
  function ValidPhoneIds(entries: seq<string>): (ids: seq<string>)
    ensures |ids| <= |entries|
    ensures forall k :: 0 <= k < |ids| ==> |ids[k]| == PhoneIdLength && ids[k] in entries
    decreases |entries|
  {
    if entries == [] then []
    else
      (if |entries[0]| == PhoneIdLength then [entries[0]] else []) + ValidPhoneIds(entries[1..])
  }

  /** `pasrse_phone_ids`: the comma-separated entries of length 11. */
  function ParsePhoneIds(config: string): (ids: seq<string>)
    ensures forall k :: 0 <= k < |ids| ==> |ids[k]| == PhoneIdLength && ids[k] in Split(config)
  {
    ValidPhoneIds(Split(config))
  }

  /** Filtering distributes over concatenation: relative order is kept. */
  lemma {:induction false} ValidPhoneIdsAppend(xs: seq<string>, ys: seq<string>)
    ensures ValidPhoneIds(xs + ys) == ValidPhoneIds(xs) + ValidPhoneIds(ys)
    decreases |xs|
  {
    if xs == [] {
      assert xs + ys == ys;
    } else {
      assert (xs + ys)[1..] == xs[1..] + ys;
      ValidPhoneIdsAppend(xs[1..], ys);
    }
  }

  /** An id is kept iff it is an entry of length 11, and as often as it occurs. */
  lemma {:induction false} ValidPhoneIdsExact(entries: seq<string>)
    ensures forall x :: x in ValidPhoneIds(entries) <==> x in entries && |x| == PhoneIdLength
    ensures forall x :: multiset(ValidPhoneIds(entries))[x] ==
                        (if |x| == PhoneIdLength then multiset(entries)[x] else 0)
    decreases |entries|
  {
    if entries != [] {
      ValidPhoneIdsExact(entries[1..]);
      assert entries == [entries[0]] + entries[1..];
    }
  }

  /** The pieces of a configuration string survive parsing exactly when they have length 11. */
  lemma ParsePhoneIdsOfJoin(pieces: seq<string>)
    requires |pieces| >= 1
    requires forall k :: 0 <= k < |pieces| ==> CommaFree(pieces[k])
    ensures ParsePhoneIds(Join(pieces)) == ValidPhoneIds(pieces)
  {
    SplitJoin(pieces);
  }

  /** `pasrse_phone_ids` keeps exactly the comma-separated entries of length 11, in order. */
  lemma ParsePhoneIdsCorrect(config: string)
    ensures forall x :: x in ParsePhoneIds(config) <==> x in Split(config) && |x| == PhoneIdLength
    ensures forall x :: multiset(ParsePhoneIds(config))[x] ==
                        (if |x| == PhoneIdLength then multiset(Split(config))[x] else 0)
    ensures forall k :: 0 <= k < |ParsePhoneIds(config)| ==>
                        |ParsePhoneIds(config)[k]| == PhoneIdLength && CommaFree(ParsePhoneIds(config)[k])
  {
    ValidPhoneIdsExact(Split(config));
    JoinSplit(config);
    forall k | 0 <= k < |ParsePhoneIds(config)|
      ensures |ParsePhoneIds(config)[k]| == PhoneIdLength && CommaFree(ParsePhoneIds(config)[k])
    {
      var x := ParsePhoneIds(config)[k];
      assert x in ParsePhoneIds(config);
      var j :| 0 <= j < |Split(config)| && Split(config)[j] == x;
    }
  }

  /** Two well-formed ids separated by a comma parse to both, in order. */
  lemma ParseTwoIds(p1: string, p2: string)
    requires |p1| == PhoneIdLength && |p2| == PhoneIdLength
    requires CommaFree(p1) && CommaFree(p2)
    ensures ParsePhoneIds(p1 + "," + p2) == [p1, p2]
  {
    assert Join([p1, p2]) == p1 + "," + Join([p2]);
    ParsePhoneIdsOfJoin([p1, p2]);
    assert ValidPhoneIds([p2]) == [p2];
  }
}
