/**
 * The iteration order of `std::set<std::string>`: strings compared character
 * by character (`std::string::compare`), a proper prefix coming first. On
 * UTF-8 text, comparing code points is the same as comparing bytes, so
 * `seq<char>` with its code-point order stands for the C++ strings.
 *
 * A `std::set` is kept here as the sequence of its elements in iteration
 * order: strictly ascending, hence free of duplicates.
 */
module StringOrder {

  /** Strict lexicographic order on strings. */
  predicate Below(a: string, b: string)
    decreases |a|
  {
    |b| > 0 && (|a| == 0 || a[0] < b[0] || (a[0] == b[0] && Below(a[1..], b[1..])))
  }

  lemma {:induction false} BelowIrreflexive(a: string)
    ensures !Below(a, a)
    decreases |a|
  {
    if |a| > 0 {
      BelowIrreflexive(a[1..]);
    }
  }

  lemma {:induction false} BelowTransitive(a: string, b: string, c: string)
    requires Below(a, b) && Below(b, c)
    ensures Below(a, c)
    decreases |a|
  {
    if |a| > 0 && a[0] == b[0] && b[0] == c[0] {
      BelowTransitive(a[1..], b[1..], c[1..]);
    }
  }

  lemma {:induction false} BelowTotal(a: string, b: string)
    requires a != b
    ensures Below(a, b) || Below(b, a)
    decreases |a|
  {
    if |a| > 0 && |b| > 0 && a[0] == b[0] {
      assert a == [a[0]] + a[1..] && b == [b[0]] + b[1..];
      BelowTotal(a[1..], b[1..]);
    }
  }

  /** The elements of a sequence, as a set. */
  function Elements(s: seq<string>): set<string>
  {
    set x | x in s
  }

  /** `s` lists its elements the way a `std::set` iterates them. */
  predicate StrictlyAscending(s: seq<string>)
  {
    forall i, j :: 0 <= i < j < |s| ==> Below(s[i], s[j])
  }

  lemma AscendingCons(h: string, t: seq<string>)
    requires StrictlyAscending(t)
    requires forall y :: y in t ==> Below(h, y)
    ensures StrictlyAscending([h] + t)
  {
    var s := [h] + t;
    forall i, j | 0 <= i < j < |s| ensures Below(s[i], s[j]) {
      if i > 0 {
        assert s[i] == t[i - 1] && s[j] == t[j - 1];
      } else {
        assert s[j] in t;
      }
    }
  }

  /** A strictly ascending sequence has as many elements as it is long. */
  lemma {:induction false} AscendingCardinality(s: seq<string>)
    requires StrictlyAscending(s)
    ensures |Elements(s)| == |s|
  {
    if s != [] {
      var t := s[1..];
      assert StrictlyAscending(t) by {
        forall i, j | 0 <= i < j < |t| ensures Below(t[i], t[j]) {
          assert t[i] == s[i + 1] && t[j] == s[j + 1];
        }
      }
      assert s[0] !in Elements(t) by {
        if s[0] in t {
          var j :| 0 <= j < |t| && t[j] == s[0];
          assert Below(s[0], s[j + 1]);
          BelowIrreflexive(s[0]);
        }
      }
      assert s == [s[0]] + t;
      assert Elements(s) == Elements(t) + {s[0]};
      AscendingCardinality(t);
    }
  }

  /**
   * `std::set::insert`: adds `x` at its place in the order, and leaves the
   * set as it is when `x` is already there.
   */
  function InsertSorted(s: seq<string>, x: string): (r: seq<string>)
    requires StrictlyAscending(s)
    ensures StrictlyAscending(r)
    ensures Elements(r) == Elements(s) + {x}
    ensures x in s ==> r == s
  {
    if s == [] then [x]
    else if x == s[0] then s
    else if Below(x, s[0]) then
      assert forall y :: y in s ==> Below(x, y) by {
        forall y | y in s ensures Below(x, y) {
          var j :| 0 <= j < |s| && s[j] == y;
          if j > 0 { BelowTransitive(x, s[0], s[j]); }
        }
      }
      BelowIrreflexive(x);
      AscendingCons(x, s);
      [x] + s
    else
      assert s == [s[0]] + s[1..];
      var rest := InsertSorted(s[1..], x);
      assert forall y :: y in rest ==> Below(s[0], y) by {
        forall y | y in rest ensures Below(s[0], y) {
          assert y in Elements(rest);
          if y == x {
            BelowTotal(x, s[0]);
          } else {
            var j :| 1 <= j < |s| && s[j] == y;
          }
        }
      }
      AscendingCons(s[0], rest);
      [s[0]] + rest
  }

  /**
   * A set has exactly one iteration order: two strictly ascending
   * sequences with the same elements are the same sequence.
   */
  lemma {:induction false} AscendingUnique(a: seq<string>, b: seq<string>)
    requires StrictlyAscending(a) && StrictlyAscending(b)
    requires Elements(a) == Elements(b)
    ensures a == b
    decreases |a|
  {
    if a == [] {
      assert forall i :: 0 <= i < |b| ==> b[i] in Elements(a);
    } else {
      assert a[0] in Elements(b);
      assert b != [];
      assert b[0] in Elements(a);
      var k :| 0 <= k < |b| && b[k] == a[0];
      var m :| 0 <= m < |a| && a[m] == b[0];
      if a[0] != b[0] {
        assert k > 0 && m > 0;
        BelowTransitive(a[0], b[0], a[0]);
        BelowIrreflexive(a[0]);
        assert false;
      }
      assert a[0] !in a[1..] by {
        if a[0] in a[1..] {
          var j :| 0 <= j < |a[1..]| && a[1..][j] == a[0];
          assert Below(a[0], a[j + 1]);
          BelowIrreflexive(a[0]);
        }
      }
      assert b[0] !in b[1..] by {
        if b[0] in b[1..] {
          var j :| 0 <= j < |b[1..]| && b[1..][j] == b[0];
          assert Below(b[0], b[j + 1]);
          BelowIrreflexive(b[0]);
        }
      }
      assert a == [a[0]] + a[1..] && b == [b[0]] + b[1..];
      assert Elements(a) == {a[0]} + Elements(a[1..]);
      assert Elements(b) == {b[0]} + Elements(b[1..]);
      assert Elements(a[1..]) == Elements(b[1..]);
      AscendingUnique(a[1..], b[1..]);
    }
  }
}
