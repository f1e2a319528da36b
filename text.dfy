/**
  String helpers used by the planner search box: ASCII lower-casing,
  `String.prototype.includes` and `Array.prototype.join`.
 */
module Text {

  /** True when `q` occurs in `h` starting at position `i`. */
  predicate OccursAt(q: string, h: string, i: int) {
    0 <= i && i + |q| <= |h| && h[i..i + |q|] == q
  }

  /** True when `q` is a prefix of `h`. */
  predicate IsPrefix(q: string, h: string) {
    |q| <= |h| && h[..|q|] == q
  }

  /**
    `h.includes(q)`: a left-to-right scan that tries every start position.
    An empty query occurs everywhere.
   */
  function Contains(h: string, q: string): (r: bool)
    ensures r <==> exists i :: OccursAt(q, h, i)
    decreases |h|
  {
    if IsPrefix(q, h) then
      assert OccursAt(q, h, 0);
      true
    else if h == [] then
      assert forall i :: !OccursAt(q, h, i);
      false
    else
      var rest := Contains(h[1..], q);
      assert forall i :: OccursAt(q, h[1..], i) <==> OccursAt(q, h, i + 1) by {
        forall i ensures OccursAt(q, h[1..], i) <==> OccursAt(q, h, i + 1) {
          if 0 <= i && i + |q| <= |h| - 1 {
            assert h[1..][i..i + |q|] == h[i + 1..i + 1 + |q|];
          }
        }
      }
      assert OccursAt(q, h, 0) ==> IsPrefix(q, h);
      assert forall i :: OccursAt(q, h, i) && i > 0 ==> OccursAt(q, h[1..], i - 1);
      rest
  }

  /** A match inside the middle part of a concatenation is a match of the whole. */
  lemma OccursInConcat(q: string, a: string, b: string, c: string, i: int)
    requires OccursAt(q, b, i)
    ensures OccursAt(q, a + b + c, |a| + i)
  {
    var w := a + b + c;
    var found, part := w[|a| + i..|a| + i + |q|], b[i..i + |q|];
    assert found == part by {
      forall k | 0 <= k < |q| ensures found[k] == part[k] {
        assert w[|a| + i + k] == b[i + k];
      }
    }
  }

  /** A match inside a match is a match: `OccursAt` composes. */
  lemma OccursTransitive(q: string, m: string, h: string, i: int, j: int)
    requires OccursAt(q, m, i) && OccursAt(m, h, j)
    ensures OccursAt(q, h, i + j)
  {
    var outer, inner := h[i + j..i + j + |q|], m[i..i + |q|];
    assert outer == inner by {
      forall k | 0 <= k < |q| ensures outer[k] == inner[k] {
        assert m[i + k] == h[j + i + k];
      }
    }
  }

  /** The ASCII part of `toLowerCase`: 'A'..'Z' become 'a'..'z', every other character is kept. */
  function LowerChar(ch: char): (r: char)
    ensures 'A' <= ch <= 'Z' ==> r as int == ch as int + 32
    ensures !('A' <= ch <= 'Z') ==> r == ch
    ensures !('A' <= r <= 'Z')
  {
    if 'A' <= ch <= 'Z' then (ch as int + 32) as char else ch
  }

  /** `toLowerCase`, character by character. */
  function Lower(s: string): (r: string)
    ensures |r| == |s|
    ensures forall i :: 0 <= i < |s| ==> r[i] == LowerChar(s[i])
  {
    if s == [] then [] else [LowerChar(s[0])] + Lower(s[1..])
  }

  lemma LowerConcat(a: string, b: string)
    ensures Lower(a + b) == Lower(a) + Lower(b)
  {
    assert forall i :: 0 <= i < |a + b| ==> Lower(a + b)[i] == (Lower(a) + Lower(b))[i];
  }

  /** Lower-casing twice is lower-casing once. */
  lemma LowerIdempotent(s: string)
    ensures Lower(Lower(s)) == Lower(s)
  {
    assert forall i :: 0 <= i < |s| ==> Lower(Lower(s))[i] == Lower(s)[i];
  }

  /** A match survives lower-casing both sides. */
  lemma OccursAtLower(q: string, h: string, i: int)
    requires OccursAt(q, h, i)
    ensures OccursAt(Lower(q), Lower(h), i)
  {
    assert Lower(h)[i..i + |q|] == Lower(q) by {
      forall k | 0 <= k < |q| ensures Lower(h)[i..i + |q|][k] == Lower(q)[k] {
        assert h[i + k] == q[k];
      }
    }
  }

  /** `items.join(sep)` for a sequence of strings; `[].join(sep)` is the empty string. */
  function Join(items: seq<string>, sep: string): (r: string)
    ensures items == [] ==> r == ""
    ensures |items| == 1 ==> r == items[0]
  {
    if items == [] then ""
    else if |items| == 1 then items[0]
    else items[0] + sep + Join(items[1..], sep)
  }

  /**
    Appending an item appends the separator and that item: with the empty and
    one-item cases above this fixes the joined string of every list, items in
    order with one separator between neighbours.
   */
  lemma {:induction false} JoinSnoc(items: seq<string>, sep: string, x: string)
    requires items != []
    ensures Join(items + [x], sep) == Join(items, sep) + sep + x
  {
    var whole := items + [x];
    assert whole[0] == items[0];
    if |items| == 1 {
      assert whole[1..] == [x];
    } else {
      assert whole[1..] == items[1..] + [x];
      JoinSnoc(items[1..], sep, x);
      var tail := Join(items[1..], sep);
      assert Join(whole, sep) == items[0] + sep + (tail + sep + x);
      assert Join(items, sep) == items[0] + sep + tail;
    }
  }

  /** Every item occurs in the joined string. */
  lemma {:induction false} ItemOccursInJoin(items: seq<string>, sep: string, k: int)
    requires 0 <= k < |items|
    ensures exists off :: OccursAt(items[k], Join(items, sep), off)
  {
    if |items| == 1 {
      var whole := Join(items, sep);
      assert whole == items[k];
      assert whole[0..|whole|] == whole;
      assert OccursAt(items[k], whole, 0);
    } else if k == 0 {
      var joined := Join(items, sep);
      assert joined == items[0] + (sep + Join(items[1..], sep));
      assert joined[..|items[0]|] == items[0];
      assert OccursAt(items[0], joined, 0);
    } else {
      var tail := Join(items[1..], sep);
      ItemOccursInJoin(items[1..], sep, k - 1);
      assert items[1..][k - 1] == items[k];
      var off :| OccursAt(items[k], tail, off);
      assert Join(items, sep) == (items[0] + sep) + tail + [];
      OccursInConcat(items[k], items[0] + sep, tail, [], off);
    }
  }
}
