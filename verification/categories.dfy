/**
 * Category indexing in convertData: each category column is deduplicated in
 * first-seen order (lodash `_.uniq`) and every surviving label is written into
 * a plain JavaScript object under its property key, with its position in the
 * deduplicated list as the value.
 */
module Categories {

  /** A category cell as the host delivers it. `Undefined` is what JavaScript reads past the end of a column. */
  datatype Label = Null | Undefined | Text(s: string)

  /** The property key JavaScript uses when the label indexes an object. */
  function Key(l: Label): string {
    match l
    case Null => "null"
    case Undefined => "undefined"
    case Text(s) => s
  }

  /** A category index: property key to zero-based position. */
  type CategoryIndex = map<string, nat>

  ghost predicate Distinct<T>(u: seq<T>) {
    forall i, j :: 0 <= i < j < |u| ==> u[i] != u[j]
  }

  /** No two entries of `u` are written under the same property key. */
  ghost predicate NoKeyClash(u: seq<Label>) {
    forall i, j :: 0 <= i < j < |u| ==> Key(u[i]) != Key(u[j])
  }

  ghost function Elements(xs: seq<Label>): set<Label> {
    set l | l in xs
  }

  ghost function KeysOf(u: seq<Label>): set<string> {
    set l | l in u :: Key(l)
  }

  /** Index of the first occurrence of `l` in `xs`. */
  function First(xs: seq<Label>, l: Label): (r: nat)
    requires l in xs
    ensures r < |xs| && xs[r] == l
    ensures l !in xs[..r]
  {
    if xs[0] == l then 0 else 1 + First(xs[1..], l)
  }

  /**
   * `_.uniq`: keeps the first occurrence of every label, in the order the
   * labels first appear (strict equality, which is structural on Label).
   */
  function Uniq(xs: seq<Label>): (u: seq<Label>)
    ensures Distinct(u)
    ensures forall l :: l in u <==> l in xs
    ensures |u| <= |xs|
  {
    if xs == [] then []
    else
      var init := xs[..|xs| - 1];
      var u := Uniq(init);
      assert forall l :: l in xs <==> l in init || l == xs[|xs| - 1] by {
        assert xs == init + [xs[|xs| - 1]];
      }
      if xs[|xs| - 1] in u then u else u + [xs[|xs| - 1]]
  }

  /**
   * The `forEach` that fills the index object: position `i` is written under
   * `Key(u[i])`, in order, so a later position overwrites an earlier one with
   * the same key.
   */
  function BuildIndex(u: seq<Label>): (m: CategoryIndex)
    ensures m.Keys == KeysOf(u)
  {
    if u == [] then map[]
    else
      KeysOfSnoc(u);
      BuildIndex(u[..|u| - 1])[Key(u[|u| - 1]) := |u| - 1]
  }

  /** Each key of the index holds a position whose entry has that key. */
  lemma {:induction false} BuildIndexPositions(u: seq<Label>)
    ensures forall k :: k in BuildIndex(u) ==> BuildIndex(u)[k] < |u| && Key(u[BuildIndex(u)[k]]) == k
  {
    if u != [] {
      var n := |u| - 1;
      var init := u[..n];
      BuildIndexPositions(init);
      var m0, m := BuildIndex(init), BuildIndex(u);
      forall k | k in m
        ensures m[k] < |u| && Key(u[m[k]]) == k
      {
        if k != Key(u[n]) {
          assert u[m0[k]] == init[m0[k]];
        }
      }
    }
  }

  /** No entry after the stored position has the same key: the last write wins. */
  lemma {:induction false} BuildIndexLastWrite(u: seq<Label>)
    ensures forall k, j :: k in BuildIndex(u) && BuildIndex(u)[k] < j < |u| ==> Key(u[j]) != k
  {
    if u != [] {
      var n := |u| - 1;
      var init := u[..n];
      BuildIndexLastWrite(init);
      var m0, m := BuildIndex(init), BuildIndex(u);
      forall k, j | k in m && m[k] < j < |u|
        ensures Key(u[j]) != k
      {
        if k != Key(u[n]) && j < n {
          assert u[j] == init[j];
        }
      }
    }
  }

  lemma {:induction false} BuildIndexLastWins(u: seq<Label>)
    ensures forall k :: k in BuildIndex(u) ==> BuildIndex(u)[k] < |u| && Key(u[BuildIndex(u)[k]]) == k
    ensures forall k, j :: k in BuildIndex(u) && BuildIndex(u)[k] < j < |u| ==> Key(u[j]) != k
  {
    BuildIndexPositions(u);
    BuildIndexLastWrite(u);
  }

  /** The index convertData builds for one category column. */
  function IndexColumn(xs: seq<Label>): CategoryIndex {
    BuildIndex(Uniq(xs))
  }

  /**
   * The keys of the raw column tell its labels apart: the column does not hold
   * both null and the string "null", nor both undefined and "undefined".
   */
  predicate KeysDistinguishLabels(xs: seq<Label>) {
    && !(Null in xs && Text("null") in xs)
    && !(Undefined in xs && Text("undefined") in xs)
  }

  /** How many distinct labels the column shows before `l` first appears. */
  ghost function Rank(xs: seq<Label>, l: Label): nat
    requires l in xs
  {
    |Elements(xs[..First(xs, l)])|
  }

  /** Two labels share a property key only when one is null or undefined and the other is its spelling. */
  lemma KeyCollision(a: Label, b: Label)
    ensures Key(a) == Key(b) <==>
      || a == b
      || (a == Null && b == Text("null")) || (a == Text("null") && b == Null)
      || (a == Undefined && b == Text("undefined")) || (a == Text("undefined") && b == Undefined)
  {
    assert "null" != "undefined";
  }

  /** Deduplication keeps one entry per distinct label. */
  lemma {:induction false} UniqCount(xs: seq<Label>)
    ensures |Uniq(xs)| == |Elements(xs)|
  {
    if xs != [] {
      var init := xs[..|xs| - 1];
      var last := xs[|xs| - 1];
      UniqCount(init);
      assert xs == init + [last];
      assert Elements(xs) == Elements(init) + {last};
      assert last in Uniq(init) <==> last in Elements(init);
    }
  }

  /** Deduplicating a prefix of the column yields a prefix of the deduplicated column. */
  lemma {:induction false} UniqPrefix(xs: seq<Label>, n: nat)
    requires n <= |xs|
    ensures Uniq(xs[..n]) <= Uniq(xs)
    decreases |xs|
  {
    if n < |xs| {
      var init := xs[..|xs| - 1];
      UniqPrefix(init, n);
      assert init[..n] == xs[..n];
    } else {
      assert xs[..n] == xs;
    }
  }

  /** Every label of the column sits in the deduplicated list at its first-occurrence rank. */
  lemma {:induction false} UniqRank(xs: seq<Label>, l: Label)
    requires l in xs
    ensures Rank(xs, l) < |Uniq(xs)| && Uniq(xs)[Rank(xs, l)] == l
  {
    var f := First(xs, l);
    var ys := xs[..f + 1];
    assert ys[..|ys| - 1] == xs[..f];
    assert ys[|ys| - 1] == l;
    UniqPrefix(xs, f + 1);
    UniqCount(xs[..f]);
  }

  lemma RankBefore(xs: seq<Label>, a: Label, b: Label)
    requires a in xs && b in xs
    requires First(xs, a) < First(xs, b)
    ensures Rank(xs, a) < Rank(xs, b)
  {
    var fa, fb := First(xs, a), First(xs, b);
    var ys := xs[..fb];
    assert ys[..fa + 1] == xs[..fa + 1];
    UniqPrefix(ys, fa + 1);
    var zs := xs[..fa + 1];
    assert zs[..|zs| - 1] == xs[..fa];
    assert zs[|zs| - 1] == a;
    UniqCount(xs[..fa]);
    UniqCount(xs[..fb]);
  }

  /** The deduplicated list is ordered by first appearance in the raw column. */
  lemma UniqFirstSeenOrder(xs: seq<Label>, a: Label, b: Label)
    requires a in xs && b in xs
    ensures First(xs, a) < First(xs, b) <==> Rank(xs, a) < Rank(xs, b)
  {
    if First(xs, a) < First(xs, b) {
      RankBefore(xs, a, b);
    } else if First(xs, b) < First(xs, a) {
      RankBefore(xs, b, a);
    }
  }

  lemma {:induction false} KeysOfCount(u: seq<Label>)
    requires NoKeyClash(u)
    ensures |KeysOf(u)| == |u|
  {
    if u != [] {
      var init := u[..|u| - 1];
      var k := Key(u[|u| - 1]);
      assert NoKeyClash(init);
      KeysOfCount(init);
      KeysOfSnoc(u);
      forall i | 0 <= i < |init|
        ensures Key(init[i]) != k
      {
        assert Key(u[i]) != Key(u[|u| - 1]);
      }
      assert k !in KeysOf(init);
    }
  }

  /** Without key clashes every entry is stored under its own position and the index has one key per entry. */
  lemma {:induction false} IndexIsPosition(u: seq<Label>)
    requires NoKeyClash(u)
    ensures forall i :: 0 <= i < |u| ==> Key(u[i]) in BuildIndex(u) && BuildIndex(u)[Key(u[i])] == i
    ensures |BuildIndex(u)| == |u|
  {
    var m := BuildIndex(u);
    BuildIndexLastWins(u);
    forall i | 0 <= i < |u|
      ensures Key(u[i]) in m && m[Key(u[i])] == i
    {
      var k := Key(u[i]);
      assert k in KeysOf(u);
      var t := m[k];
      assert Key(u[t]) == k;
    }
    KeysOfCount(u);
  }

  /** When two entries share a key, the earlier one's position is lost from the index. */
  lemma {:induction false} ClashLosesPosition(u: seq<Label>, i: nat, j: nat)
    requires i < j < |u| && Key(u[i]) == Key(u[j])
    ensures i !in BuildIndex(u).Values
  {
    var m := BuildIndex(u);
    BuildIndexLastWins(u);
    forall k | k in m
      ensures m[k] != i
    {
      assert m[k] < j ==> Key(u[j]) != k;
    }
  }

  /** The index values are exactly 0..|u|-1 precisely when no two entries share a key. */
  lemma IndexContiguousIff(u: seq<Label>)
    ensures (forall v: nat :: v in BuildIndex(u).Values <==> v < |u|) <==> NoKeyClash(u)
  {
    var m := BuildIndex(u);
    if NoKeyClash(u) {
      IndexIsPosition(u);
      forall v: nat | v < |u|
        ensures v in m.Values
      {
        assert m[Key(u[v])] == v;
      }
      forall v | v in m.Values
        ensures v < |u|
      {
        var k :| k in m && m[k] == v;
        assert Key(u[m[k]]) == k;
      }
    } else {
      var i, j :| 0 <= i < j < |u| && Key(u[i]) == Key(u[j]);
      ClashLosesPosition(u, i, j);
    }
  }

  /** The column's deduplicated labels have pairwise distinct keys exactly when the raw column tells them apart. */
  lemma {:induction false} NoKeyClashIff(xs: seq<Label>)
    ensures NoKeyClash(Uniq(xs)) <==> KeysDistinguishLabels(xs)
  {
    var u := Uniq(xs);
    if KeysDistinguishLabels(xs) {
      forall i, j | 0 <= i < j < |u|
        ensures Key(u[i]) != Key(u[j])
      {
        KeyCollision(u[i], u[j]);
      }
    } else if Null in xs && Text("null") in xs {
      UniqRank(xs, Null);
      UniqRank(xs, Text("null"));
      var a, b := Rank(xs, Null), Rank(xs, Text("null"));
      if a < b {
        assert Key(u[a]) == Key(u[b]);
      } else {
        assert Key(u[b]) == Key(u[a]);
      }
    } else {
      UniqRank(xs, Undefined);
      UniqRank(xs, Text("undefined"));
      var a, b := Rank(xs, Undefined), Rank(xs, Text("undefined"));
      if a < b {
        assert Key(u[a]) == Key(u[b]);
      } else {
        assert Key(u[b]) == Key(u[a]);
      }
    }
  }

  /**
   * When the keys tell the labels apart, every label of the column is stored
   * under its key at its first-occurrence rank, and the index holds exactly
   * the positions 0..n-1 for the n distinct labels.
   */
  lemma {:induction false} ColumnIndexIsRank(xs: seq<Label>)
    requires KeysDistinguishLabels(xs)
    ensures forall l :: l in xs ==> Key(l) in IndexColumn(xs) && IndexColumn(xs)[Key(l)] == Rank(xs, l)
    ensures forall v: nat :: v in IndexColumn(xs).Values <==> v < |Elements(xs)|
    ensures |IndexColumn(xs)| == |Elements(xs)|
  {
    var u := Uniq(xs);
    NoKeyClashIff(xs);
    IndexIsPosition(u);
    IndexContiguousIff(u);
    UniqCount(xs);
    forall l | l in xs
      ensures Key(l) in IndexColumn(xs) && IndexColumn(xs)[Key(l)] == Rank(xs, l)
    {
      UniqRank(xs, l);
    }
  }

  /**
   * A column holding both null and the string "null": both survive
   * deduplication, both are written under the key "null", and the later
   * position overwrites the earlier one, which no key keeps.
   */
  lemma {:induction false} NullCollision(xs: seq<Label>)
    requires Null in xs && Text("null") in xs
    ensures "null" in IndexColumn(xs)
    ensures Rank(xs, Null) != Rank(xs, Text("null"))
    ensures IndexColumn(xs)["null"] == Max(Rank(xs, Null), Rank(xs, Text("null")))
    ensures Min(Rank(xs, Null), Rank(xs, Text("null"))) !in IndexColumn(xs).Values
  {
    var u := Uniq(xs);
    var m := IndexColumn(xs);
    UniqRank(xs, Null);
    UniqRank(xs, Text("null"));
    var a, b := Rank(xs, Null), Rank(xs, Text("null"));
    assert Key(u[a]) == "null";
    assert "null" in KeysOf(u);
    BuildIndexLastWins(u);
    var t := m["null"];
    NullKeyPositions(xs, t);
    assert Key(u[Max(a, b)]) == "null";
    ClashLosesPosition(u, Min(a, b), Max(a, b));
  }

  /** In the deduplicated column, only the entries null and "null" carry the key "null". */
  lemma {:induction false} NullKeyPositions(xs: seq<Label>, t: nat)
    requires Null in xs && Text("null") in xs
    requires t < |Uniq(xs)| && Key(Uniq(xs)[t]) == "null"
    ensures t == Rank(xs, Null) || t == Rank(xs, Text("null"))
  {
    var u := Uniq(xs);
    UniqRank(xs, Null);
    UniqRank(xs, Text("null"));
    KeyCollision(u[t], Null);
    if u[t] == Null {
      assert u[t] == u[Rank(xs, Null)];
    } else {
      assert u[t] == u[Rank(xs, Text("null"))];
    }
  }

  lemma KeysOfSnoc(u: seq<Label>)
    requires u != []
    ensures KeysOf(u) == KeysOf(u[..|u| - 1]) + {Key(u[|u| - 1])}
  {
    assert u == u[..|u| - 1] + [u[|u| - 1]];
  }

  /** Deduplicating one more label appends it exactly when it is new. */
  lemma UniqSnoc(xs: seq<Label>, l: Label)
    ensures Uniq(xs + [l]) == if l in xs then Uniq(xs) else Uniq(xs) + [l]
  {
    assert (xs + [l])[..|xs|] == xs;
  }

  /** Indexing one more entry writes its position under its key. */
  lemma BuildIndexSnoc(u: seq<Label>, l: Label)
    ensures BuildIndex(u + [l]) == BuildIndex(u)[Key(l) := |u|]
  {
    assert (u + [l])[..|u|] == u;
  }

  function Max(a: nat, b: nat): nat {
    if a < b then b else a
  }

  function Min(a: nat, b: nat): nat {
    if a < b then a else b
  }
}
