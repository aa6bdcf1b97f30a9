/** The colour registry behind `getLineColor`: an append-only list of
    entries, searched front to back for the unordered pair {start, end}. */
module ColorRegistry {
  import opened TripModel

  /** Whether an entry is the one for the pair, in either order. */
  predicate Matches(entry: LineColor, s: string, e: string) {
    (entry.start == s && entry.end == e) || (entry.start == e && entry.end == s)
  }

  /** Position of the first entry for the pair (what `find` stops at), or
      |m| when there is none. */
  function FirstMatch(m: seq<LineColor>, s: string, e: string): (k: nat)
    ensures k <= |m|
    ensures k < |m| ==> Matches(m[k], s, e)
    ensures forall j :: 0 <= j < k ==> !Matches(m[j], s, e)
  {
    if m == [] then 0
    else if Matches(m[0], s, e) then 0
    else 1 + FirstMatch(m[1..], s, e)
  }

  /** The colour stored for the pair, if any. */
  function FindColor(m: seq<LineColor>, s: string, e: string): (r: Option<Rgb>)
    ensures r.None? <==> forall j :: 0 <= j < |m| ==> !Matches(m[j], s, e)
    ensures r.Some? ==> exists k :: 0 <= k < |m| && Matches(m[k], s, e) && m[k].color == r.value
  {
    var k := FirstMatch(m, s, e);
    if k < |m| then Some(m[k].color) else None
  }

  /** `getLineColor(s, e)` on registry `m`, where `generated` is the colour the
      random generator would produce next: the colour returned and the
      registry afterwards. */
  function LineColorFor(m: seq<LineColor>, s: string, e: string, generated: Rgb): (r: (Rgb, seq<LineColor>))
    ensures m <= r.1 && |r.1| <= |m| + 1
    ensures FindColor(r.1, s, e) == Some(r.0)
    ensures |r.1| == |m| <==> FindColor(m, s, e).Some?
    ensures FindColor(m, s, e).Some? ==> r.0 == FindColor(m, s, e).value
    ensures |r.1| == |m| + 1 ==> r.1[|m|] == LineColor(s, e, generated) && r.0 == generated
  {
    match FindColor(m, s, e)
    case Some(c) => (c, m)
    case None =>
      var m' := m + [LineColor(s, e, generated)];
      assert Matches(m'[|m|], s, e);
      (generated, m')
  }

  /** Entry j is not for the pair of entry i. */
  predicate DistinctPairs(m: seq<LineColor>, i: nat, j: nat)
    requires i < |m| && j < |m|
  {
    !Matches(m[j], m[i].start, m[i].end)
  }

  /** No two entries are for the same unordered pair. */
  ghost predicate UniquePairs(m: seq<LineColor>) {
    forall i, j :: 0 <= i < j < |m| ==> DistinctPairs(m, i, j)
  }

  /** The search does not depend on the order of the pair. */
  lemma {:induction false} FirstMatchSymmetric(m: seq<LineColor>, a: string, b: string)
    ensures FirstMatch(m, a, b) == FirstMatch(m, b, a)
  {
    if m != [] {
      FirstMatchSymmetric(m[1..], a, b);
    }
  }

  /** A colour, once bound to a pair, is what every later registry (one
      that extends this one) returns for the pair. */
  lemma BindingStable(m: seq<LineColor>, m': seq<LineColor>, a: string, b: string)
    requires m <= m'
    requires FindColor(m, a, b).Some?
    ensures FindColor(m', a, b) == FindColor(m, a, b)
  {
    var k := FirstMatch(m, a, b);
    var k' := FirstMatch(m', a, b);
    assert m'[k] == m[k];
  }

  /** getLineColor(a, b) and then getLineColor(b, a) return the same colour,
      and the second call leaves the registry as the first left it. */
  lemma LookupSymmetric(m: seq<LineColor>, a: string, b: string, generated1: Rgb, generated2: Rgb)
    ensures var (c1, m1) := LineColorFor(m, a, b, generated1);
            LineColorFor(m1, b, a, generated2) == (c1, m1)
  {
    var (c1, m1) := LineColorFor(m, a, b, generated1);
    FirstMatchSymmetric(m1, a, b);
    assert FindColor(m1, b, a) == Some(c1);
  }

  /** Repeating a lookup returns the same colour and never grows the registry. */
  lemma LookupRepeatable(m: seq<LineColor>, a: string, b: string, generated1: Rgb, generated2: Rgb)
    ensures var (c1, m1) := LineColorFor(m, a, b, generated1);
            LineColorFor(m1, a, b, generated2) == (c1, m1)
  {
  }

  /** A lookup keeps the registry free of duplicate pairs. */
  lemma LookupKeepsPairsUnique(m: seq<LineColor>, s: string, e: string, generated: Rgb)
    requires UniquePairs(m)
    ensures UniquePairs(LineColorFor(m, s, e, generated).1)
  {
    var m' := LineColorFor(m, s, e, generated).1;
    if |m'| == |m| + 1 {
      forall i, j | 0 <= i < j < |m'|
        ensures DistinctPairs(m', i, j)
      {
        if j == |m| {
          assert !Matches(m[i], s, e);
        } else {
          assert m'[i] == m[i] && m'[j] == m[j];
          assert DistinctPairs(m, i, j);
        }
      }
    }
  }

  // ----------------------------------------------------------------------
  // A sequence of lookups

  /** The colour `generateRandomColor` builds from the random draws number
      n, n + 1 and n + 2 (one per channel, in the order red, green, blue). */
  function NextColor(random: nat -> Channel, n: nat): Rgb {
    Rgb(random(n), random(n + 1), random(n + 2))
  }

  /** The registry and the number of random draws after one call of
      `getLineColor` on pair p. */
  function LookupOne(m: seq<LineColor>, p: (string, string), random: nat -> Channel, draws: nat): (r: (seq<LineColor>, nat))
    ensures m <= r.0 && |r.0| <= |m| + 1
    ensures r.1 == draws + 3 * (|r.0| - |m|)
    ensures FindColor(r.0, p.0, p.1).Some?
  {
    var m1 := LineColorFor(m, p.0, p.1, NextColor(random, draws)).1;
    (m1, draws + 3 * (|m1| - |m|))
  }

  /** The registry and the number of random draws after calling
      `getLineColor` on each pair in turn; every miss draws three channels. */
  function LookupAll(m: seq<LineColor>, pairs: seq<(string, string)>, random: nat -> Channel, draws: nat): (r: (seq<LineColor>, nat))
    ensures m <= r.0
    ensures r.1 == draws + 3 * (|r.0| - |m|)
    decreases |pairs|
  {
    if pairs == [] then (m, draws)
    else
      var n := LookupOne(m, pairs[0], random, draws);
      LookupAll(n.0, pairs[1..], random, n.1)
  }

  /** Looking up a pair again finds the colour the first lookup left, so
      the second lookup changes nothing, and looking the pair up twice in a
      row is looking it up once. */
  lemma LookupPairTwice(m: seq<LineColor>, p: (string, string), random: nat -> Channel, draws: nat)
    ensures var r := LookupAll(m, [p], random, draws);
            && LookupAll(r.0, [p], random, r.1) == r
            && LookupAll(m, [p, p], random, draws) == r
  {
    var n := LookupOne(m, p, random, draws);
    assert [p, p][1..] == [p] && [p][1..] == [];
    assert LookupOne(n.0, p, random, n.1) == n;
  }

  /** After the lookups, pair k has a colour. */
  lemma {:induction false} LookupAllRegistersOne(m: seq<LineColor>, pairs: seq<(string, string)>,
                                                 random: nat -> Channel, draws: nat, k: nat)
    requires k < |pairs|
    ensures FindColor(LookupAll(m, pairs, random, draws).0, pairs[k].0, pairs[k].1).Some?
    decreases k
  {
    var n := LookupOne(m, pairs[0], random, draws);
    if k == 0 {
      BindingStable(n.0, LookupAll(n.0, pairs[1..], random, n.1).0, pairs[0].0, pairs[0].1);
    } else {
      assert pairs[k] == pairs[1..][k - 1];
      LookupAllRegistersOne(n.0, pairs[1..], random, n.1, k - 1);
    }
  }

  /** After the lookups, every pair looked up has a colour. */
  lemma LookupAllRegisters(m: seq<LineColor>, pairs: seq<(string, string)>, random: nat -> Channel, draws: nat)
    ensures forall k :: 0 <= k < |pairs| ==>
              FindColor(LookupAll(m, pairs, random, draws).0, pairs[k].0, pairs[k].1).Some?
  {
    forall k | 0 <= k < |pairs|
      ensures FindColor(LookupAll(m, pairs, random, draws).0, pairs[k].0, pairs[k].1).Some?
    {
      LookupAllRegistersOne(m, pairs, random, draws, k);
    }
  }

  /** Looking up a + b is looking up a, then b from where a left off. */
  lemma {:induction false} LookupAllAppend(m: seq<LineColor>, a: seq<(string, string)>, b: seq<(string, string)>,
                                           random: nat -> Channel, draws: nat)
    ensures LookupAll(m, a + b, random, draws) ==
            LookupAll(LookupAll(m, a, random, draws).0, b, random, LookupAll(m, a, random, draws).1)
    decreases |a|
  {
    if a == [] {
      assert a + b == b;
    } else {
      var (m1, d1) := LookupOne(m, a[0], random, draws);
      assert (a + b)[0] == a[0];
      assert (a + b)[1..] == a[1..] + b;
      assert LookupAll(m, a + b, random, draws) == LookupAll(m1, a[1..] + b, random, d1);
      assert LookupAll(m, a, random, draws) == LookupAll(m1, a[1..], random, d1);
      LookupAllAppend(m1, a[1..], b, random, d1);
    }
  }

  /** When every pair already has a colour, the lookups change nothing and
      draw no random numbers. */
  lemma {:induction false} LookupAllRegistered(m: seq<LineColor>, pairs: seq<(string, string)>,
                                               random: nat -> Channel, draws: nat)
    requires forall k :: 0 <= k < |pairs| ==> FindColor(m, pairs[k].0, pairs[k].1).Some?
    ensures LookupAll(m, pairs, random, draws) == (m, draws)
    decreases |pairs|
  {
    if pairs != [] {
      assert forall k :: 0 <= k < |pairs[1..]| ==> pairs[1..][k] == pairs[k + 1];
      LookupAllRegistered(m, pairs[1..], random, draws);
    }
  }

  /** Repeating the same lookups draws no new colour. */
  lemma LookupAllIdempotent(m: seq<LineColor>, pairs: seq<(string, string)>, random: nat -> Channel,
                            draws: nat, draws': nat)
    ensures var m1 := LookupAll(m, pairs, random, draws).0;
            LookupAll(m1, pairs, random, draws') == (m1, draws')
  {
    var m1 := LookupAll(m, pairs, random, draws).0;
    LookupAllRegisters(m, pairs, random, draws);
    LookupAllRegistered(m1, pairs, random, draws');
  }

  /** A sequence of lookups keeps the registry free of duplicate pairs. */
  lemma {:induction false} LookupAllKeepsPairsUnique(m: seq<LineColor>, pairs: seq<(string, string)>,
                                                     random: nat -> Channel, draws: nat)
    requires UniquePairs(m)
    ensures UniquePairs(LookupAll(m, pairs, random, draws).0)
    decreases |pairs|
  {
    if pairs != [] {
      var (m1, d1) := LookupOne(m, pairs[0], random, draws);
      LookupKeepsPairsUnique(m, pairs[0].0, pairs[0].1, NextColor(random, draws));
      LookupAllKeepsPairsUnique(m1, pairs[1..], random, d1);
    }
  }
}
