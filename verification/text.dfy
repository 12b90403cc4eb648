/** Strings as `seq<char>`: where one string sits inside another, and Python's
    `sep.join(parts)`. */
module Text {

  /** `part` occurs in `s` starting at offset `k`. */
  predicate OccursAt(s: string, part: string, k: int) {
    0 <= k && k + |part| <= |s| && s[k..k + |part|] == part
  }

  /** `part` occurs somewhere in `s`. */
  predicate Embeds(s: string, part: string) {
    exists k | 0 <= k <= |s| :: OccursAt(s, part, k)
  }

  /** Whatever surrounds it, a piece written in the middle of a concatenation
      is embedded in the result. */
  lemma EmbedsMiddle(a: string, part: string, b: string)
    ensures OccursAt(a + part + b, part, |a|)
    ensures Embeds(a + part + b, part)
  {
    assert OccursAt(a + part + b, part, |a|);
  }

  /** Python's `sep.join(parts)`: the parts in order, with `sep` between each
      neighbouring pair and nowhere else. */
  function Join(parts: seq<string>, sep: string): string
    decreases |parts|
  {
    if |parts| == 0 then ""
    else if |parts| == 1 then parts[0]
    else Join(parts[..|parts| - 1], sep) + sep + parts[|parts| - 1]
  }

  /** Sum of the lengths of the parts. */
  function TotalLength(parts: seq<string>): nat
    decreases |parts|
  {
    if |parts| == 0 then 0 else TotalLength(parts[..|parts| - 1]) + |parts[|parts| - 1]|
  }

  /** Offset at which part `i` begins once the parts are laid out with a
      separator after every part before it. */
  function Start(parts: seq<string>, sep: string, i: nat): nat
    requires i <= |parts|
  {
    if i == 0 then 0 else Start(parts, sep, i - 1) + |parts[i - 1]| + |sep|
  }

  lemma {:induction false} StartOfPrefix(parts: seq<string>, sep: string, n: nat, i: nat)
    requires i <= n <= |parts|
    ensures Start(parts[..n], sep, i) == Start(parts, sep, i)
    decreases i
  {
    if i > 0 {
      StartOfPrefix(parts, sep, n, i - 1);
      assert parts[..n][i - 1] == parts[i - 1];
    }
  }

  lemma OccursInPrefix(a: string, b: string, part: string, k: int)
    requires OccursAt(a, part, k)
    ensures OccursAt(a + b, part, k)
  {
  }

  /** Where the join of `n` parts ends: right after the last part. */
  lemma {:induction false} JoinEnd(parts: seq<string>, sep: string)
    requires |parts| > 0
    ensures |Join(parts, sep)| == Start(parts, sep, |parts| - 1) + |parts[|parts| - 1]|
    decreases |parts|
  {
    var n := |parts|;
    if n > 1 {
      var pre := parts[..n - 1];
      JoinEnd(pre, sep);
      StartOfPrefix(parts, sep, n - 1, n - 2);
      assert pre[n - 2] == parts[n - 2];
    }
  }

  /** Part `i` of a join sits at offset `Start(i)`. */
  lemma {:induction false} PartAt(parts: seq<string>, sep: string, i: nat)
    requires i < |parts|
    ensures OccursAt(Join(parts, sep), parts[i], Start(parts, sep, i))
    decreases |parts|
  {
    var n := |parts|;
    var j := Join(parts, sep);
    if n == 1 {
      assert j[0..|parts[0]|] == parts[0];
    } else {
      var pre := parts[..n - 1];
      var jp := Join(pre, sep);
      assert j == jp + (sep + parts[n - 1]);
      if i < n - 1 {
        PartAt(pre, sep, i);
        StartOfPrefix(parts, sep, n - 1, i);
        assert pre[i] == parts[i];
        OccursInPrefix(jp, sep + parts[n - 1], parts[i], Start(parts, sep, i));
      } else {
        JoinEnd(pre, sep);
        StartOfPrefix(parts, sep, n - 1, n - 2);
        assert pre[n - 2] == parts[n - 2];
        EmbedsMiddle(jp + sep, parts[n - 1], "");
        assert jp + sep + parts[n - 1] + "" == j;
      }
    }
  }

  /** The separator follows part `i` whenever another part comes after it. */
  lemma {:induction false} SeparatorAt(parts: seq<string>, sep: string, i: nat)
    requires i + 1 < |parts|
    ensures OccursAt(Join(parts, sep), sep, Start(parts, sep, i) + |parts[i]|)
    decreases |parts|
  {
    var n := |parts|;
    var j := Join(parts, sep);
    var pre := parts[..n - 1];
    var jp := Join(pre, sep);
    assert j == jp + (sep + parts[n - 1]);
    StartOfPrefix(parts, sep, n - 1, i);
    assert pre[i] == parts[i];
    if i + 1 < n - 1 {
      SeparatorAt(pre, sep, i);
      OccursInPrefix(jp, sep + parts[n - 1], sep, Start(parts, sep, i) + |parts[i]|);
    } else {
      JoinEnd(pre, sep);
      EmbedsMiddle(jp, sep, parts[n - 1]);
    }
  }

  /** `PartAt`'s conclusion as a predicate, for use under a quantifier. */
  predicate PartPlaced(joined: string, parts: seq<string>, sep: string, i: int) {
    0 <= i < |parts| && OccursAt(joined, parts[i], Start(parts, sep, i))
  }

  /** A separator directly follows part `i`. */
  predicate SeparatorPlaced(joined: string, parts: seq<string>, sep: string, i: int) {
    0 <= i < |parts| && OccursAt(joined, sep, Start(parts, sep, i) + |parts[i]|)
  }

  /** Layout of a join: part `i` sits at `Start(i)`, a separator follows every
      part but the last, and nothing comes after the last part. So `n` parts
      give exactly `n - 1` separators, at offsets fixed by the parts' lengths.
      No parts give the empty string. */
  lemma {:induction false} JoinLayout(parts: seq<string>, sep: string)
    ensures |parts| == 0 ==> Join(parts, sep) == ""
    ensures |parts| > 0 ==> |Join(parts, sep)| == Start(parts, sep, |parts| - 1) + |parts[|parts| - 1]|
    ensures forall i :: 0 <= i < |parts| ==> PartPlaced(Join(parts, sep), parts, sep, i)
    ensures forall i :: 0 <= i < |parts| - 1 ==> SeparatorPlaced(Join(parts, sep), parts, sep, i)
  {
    if |parts| > 0 {
      JoinEnd(parts, sep);
    }
    forall i | 0 <= i < |parts|
      ensures PartPlaced(Join(parts, sep), parts, sep, i)
    {
      PartAt(parts, sep, i);
    }
    forall i | 0 <= i < |parts| - 1
      ensures SeparatorPlaced(Join(parts, sep), parts, sep, i)
    {
      SeparatorAt(parts, sep, i);
    }
  }

  /** The length of a join: the parts' total length plus one separator per
      neighbouring pair. */
  lemma {:induction false} JoinLength(parts: seq<string>, sep: string)
    requires |parts| > 0
    ensures |Join(parts, sep)| == TotalLength(parts) + (|parts| - 1) * |sep|
    decreases |parts|
  {
    if |parts| > 1 {
      var pre := parts[..|parts| - 1];
      JoinLength(pre, sep);
      assert Join(parts, sep) == Join(pre, sep) + sep + parts[|parts| - 1];
      assert TotalLength(parts) == TotalLength(pre) + |parts[|parts| - 1]|;
    }
  }
}
