/**
 * Rack construction (src/EBPRules.c, shuffleColorsAndNumbers and
 * prepareBallData): the colours, stripe flags and numbers of the 15 numbered
 * balls in rack order. Each shuffle swaps every position i with a position
 * drawn from the random source; the draws are an input sequence here.
 */
module Rack {
  import opened Types

  const SolidColors := [EbpYellow, EbpBlue, EbpRed, EbpPurple, EbpOrange, EbpGreen, EbpBrown]
  const SolidNumbers := [1, 2, 3, 4, 5, 6, 7]
  const StripeColors := [EbpYellow, EbpBlue, EbpRed, EbpPurple, EbpOrange, EbpGreen, EbpBrown]
  const StripeNumbers := [9, 10, 11, 12, 13, 14, 15]

  /** The numbers 1 to 15. */
  const OneToFifteen := seq(BallCount, k => k + 1)

  /** The colour the rack gives to ball number n. */
  function ColorOf(n: int): Color {
    if 1 <= n <= 7 then SolidColors[n - 1]
    else if 9 <= n <= 15 then StripeColors[n - 9]
    else Black
  }

  /** Every colour is the one that belongs to the number at the same index. */
  ghost predicate Paired(cs: seq<Color>, ns: seq<int>) {
    |cs| == |ns| && forall k :: 0 <= k < |cs| ==> cs[k] == ColorOf(ns[k])
  }

  /** size values of GetRandomValue(0, size - 1). */
  ghost predicate DrawsFor(draws: seq<int>, size: int) {
    |draws| == size && forall k :: 0 <= k < |draws| ==> 0 <= draws[k] < size
  }

  /** The draws the three shuffles of a rack consume, in order: 7, 7 and 12. */
  ghost predicate RackDraws(draws: seq<int>) {
    |draws| == 26 && DrawsFor(draws[..7], 7) && DrawsFor(draws[7..14], 7) && DrawsFor(draws[14..], 12)
  }

  function Swap<T>(s: seq<T>, i: int, j: int): seq<T>
    requires 0 <= i < |s| && 0 <= j < |s|
  {
    s[i := s[j]][j := s[i]]
  }

  lemma SwapPermutes<T>(s: seq<T>, i: int, j: int)
    requires 0 <= i < |s| && 0 <= j < |s|
    ensures multiset(Swap(s, i, j)) == multiset(s)
  {
    var u := s[i := s[j]];
    assert multiset(u) == multiset(s) - multiset{s[i]} + multiset{s[j]};
    assert u[j] == s[j];
    assert multiset(u[j := s[i]]) == multiset(u) - multiset{u[j]} + multiset{s[i]};
  }

  /** The sequence after the first k swaps of the shuffle loop. */
  function Shuffled<T>(s: seq<T>, draws: seq<int>, k: nat): (r: seq<T>)
    requires DrawsFor(draws, |s|) && k <= |s|
    ensures |r| == |s|
  {
    if k == 0 then s else Swap(Shuffled(s, draws, k - 1), k - 1, draws[k - 1])
  }

  function Shuffle<T>(s: seq<T>, draws: seq<int>): seq<T>
    requires DrawsFor(draws, |s|)
  {
    Shuffled(s, draws, |s|)
  }

  /** The indices 0 to n - 1. */
  function Iota(n: nat): (r: seq<int>)
    ensures |r| == n && forall k :: 0 <= k < n ==> r[k] == k
  {
    seq(n, k => k)
  }

  /** One swap of the shuffle loop keeps the elements. */
  lemma ShuffledStepPermutes<T>(s: seq<T>, draws: seq<int>, k: nat)
    requires DrawsFor(draws, |s|) && 0 < k <= |s|
    ensures multiset(Shuffled(s, draws, k)) == multiset(Shuffled(s, draws, k - 1))
  {
    SwapPermutes(Shuffled(s, draws, k - 1), k - 1, draws[k - 1]);
  }

  /** Shuffling is a permutation. */
  lemma {:induction false} ShuffledPermutes<T>(s: seq<T>, draws: seq<int>, k: nat)
    requires DrawsFor(draws, |s|) && k <= |s|
    ensures multiset(Shuffled(s, draws, k)) == multiset(s)
  {
    if k > 0 {
      ghost var m1 := multiset(Shuffled(s, draws, k - 1));
      ShuffledPermutes(s, draws, k - 1);
      assert m1 == multiset(s);
      ShuffledStepPermutes(s, draws, k);
      assert multiset(Shuffled(s, draws, k)) == m1;
    }
  }

  /**
   * The shuffle moves every sequence of the same length by one and the same
   * permutation p, which depends on the draws alone: position m receives the
   * element that stood at p[m].
   */
  lemma {:induction false} ShuffledIsReindexing<T>(s: seq<T>, draws: seq<int>, k: nat)
    requires DrawsFor(draws, |s|) && k <= |s|
    ensures var p := Shuffled(Iota(|s|), draws, k);
            && (forall m :: 0 <= m < |s| ==> 0 <= p[m] < |s|)
            && (forall m :: 0 <= m < |s| ==> Shuffled(s, draws, k)[m] == s[p[m]])
  {
    if k > 0 {
      ShuffledIsReindexing(s, draws, k - 1);
      var p, q := Shuffled(Iota(|s|), draws, k - 1), Shuffled(s, draws, k - 1);
      var i, j := k - 1, draws[k - 1];
      assert Shuffled(Iota(|s|), draws, k) == Swap(p, i, j);
      assert Shuffled(s, draws, k) == Swap(q, i, j);
      forall m | 0 <= m < |s|
        ensures 0 <= Swap(p, i, j)[m] < |s| && Swap(q, i, j)[m] == s[Swap(p, i, j)[m]]
      {
        var n := if m == j then i else if m == i then j else m;
        assert Swap(p, i, j)[m] == p[n] && Swap(q, i, j)[m] == q[n];
      }
    }
  }

  /** Because both arrays move by the same permutation, colour/number pairs stay together. */
  lemma ShuffledKeepsPairs(cs: seq<Color>, ns: seq<int>, draws: seq<int>)
    requires Paired(cs, ns) && DrawsFor(draws, |cs|)
    ensures Paired(Shuffle(cs, draws), Shuffle(ns, draws))
  {
    ShuffledIsReindexing(cs, draws, |cs|);
    ShuffledIsReindexing(ns, draws, |ns|);
  }

  /**
   * shuffleColorsAndNumbers: for i in 0..size-1, swap position i with a
   * drawn position, in both arrays.
   */
  method ShuffleColorsAndNumbers(colors: array<Color>, numbers: array<int>, size: int, draws: seq<int>)
    requires colors.Length == size && numbers.Length == size && DrawsFor(draws, size)
    modifies colors, numbers
    ensures colors[..] == Shuffle(old(colors[..]), draws)
    ensures numbers[..] == Shuffle(old(numbers[..]), draws)
  {
    for i := 0 to size
      invariant colors[..] == Shuffled(old(colors[..]), draws, i)
      invariant numbers[..] == Shuffled(old(numbers[..]), draws, i)
    {
      var p := draws[i];
      var c := colors[i];
      colors[i] := colors[p];
      colors[p] := c;
      var n := numbers[i];
      numbers[i] := numbers[p];
      numbers[p] := n;
    }
  }

  /** The three outputs of prepareBallData, in rack order. */
  datatype Layout = Layout(colors: seq<Color>, striped: seq<bool>, numbers: seq<int>)

  /**
   * The rack order: the 8 at index 4, the first solid at index 10, the first
   * stripe at index 14, and the 12-entry queue in the remaining places.
   */
  function Deal<T>(queue: seq<T>, at4: T, at10: T, at14: T): (r: seq<T>)
    requires |queue| == 12
    ensures |r| == BallCount
  {
    queue[..4] + [at4] + queue[4..9] + [at10] + queue[9..] + [at14]
  }

  /** The queue index q that rack position i takes when it is not a fixed place. */
  function QueueIndex(i: int): int {
    if i <= 4 then i else if i <= 10 then i - 1 else if i <= 14 then i - 2 else 12
  }

  lemma DealAt<T>(queue: seq<T>, at4: T, at10: T, at14: T, i: int)
    requires |queue| == 12 && 0 <= i < BallCount
    ensures Deal(queue, at4, at10, at14)[i] ==
            if i == 4 then at4 else if i == 10 then at10 else if i == 14 then at14
            else queue[QueueIndex(i)]
  {
  }

  function StripedFlags(ns: seq<int>): (r: seq<bool>)
    ensures |r| == |ns| && forall k :: 0 <= k < |ns| ==> r[k] == (ns[k] > 8)
  {
    seq(|ns|, k requires 0 <= k < |ns| => ns[k] > 8)
  }

  /** Colours and numbers that the shuffles move together. */
  datatype Group = Group(colors: seq<Color>, numbers: seq<int>)

  const Solids := Group(SolidColors, SolidNumbers)
  const Stripes := Group(StripeColors, StripeNumbers)

  function ShuffleGroup(g: Group, draws: seq<int>): (r: Group)
    requires |g.numbers| == |g.colors| && DrawsFor(draws, |g.colors|)
    ensures |r.colors| == |r.numbers| == |g.colors|
  {
    Group(Shuffle(g.colors, draws), Shuffle(g.numbers, draws))
  }

  /** A shuffled group keeps its numbers and the colour of each number. */
  lemma ShuffleGroupFacts(g: Group, draws: seq<int>)
    requires Paired(g.colors, g.numbers) && DrawsFor(draws, |g.colors|)
    ensures Paired(ShuffleGroup(g, draws).colors, ShuffleGroup(g, draws).numbers)
    ensures multiset(ShuffleGroup(g, draws).numbers) == multiset(g.numbers)
  {
    ShuffledKeepsPairs(g.colors, g.numbers, draws);
    ShuffledPermutes(g.numbers, draws, |g.numbers|);
  }

  /** The solids after their shuffle. */
  function SolidsOf(shuffle: bool, draws: seq<int>): (r: Group)
    requires shuffle ==> RackDraws(draws)
    ensures |r.colors| == |r.numbers| == 7
  {
    if shuffle then ShuffleGroup(Solids, draws[..7]) else Solids
  }

  /** The stripes after their shuffle. */
  function StripesOf(shuffle: bool, draws: seq<int>): (r: Group)
    requires shuffle ==> RackDraws(draws)
    ensures |r.colors| == |r.numbers| == 7
  {
    if shuffle then ShuffleGroup(Stripes, draws[7..14]) else Stripes
  }

  /** The queue of all but the first ball of each group, after its shuffle. */
  function QueueOf(shuffle: bool, draws: seq<int>): (r: Group)
    requires shuffle ==> RackDraws(draws)
    ensures |r.colors| == |r.numbers| == 12
  {
    var s, t := SolidsOf(shuffle, draws), StripesOf(shuffle, draws);
    var q := Group(s.colors[1..] + t.colors[1..], s.numbers[1..] + t.numbers[1..]);
    if shuffle then ShuffleGroup(q, draws[14..]) else q
  }

  /** What prepareBallData writes, as the default (non-test) positioning does it. */
  function RackLayout(shuffle: bool, draws: seq<int>): (r: Layout)
    requires shuffle ==> RackDraws(draws)
    ensures |r.colors| == |r.striped| == |r.numbers| == BallCount
    ensures r.numbers[4] == 8
  {
    var s, t, q := SolidsOf(shuffle, draws), StripesOf(shuffle, draws), QueueOf(shuffle, draws);
    Layout(Deal(q.colors, Black, s.colors[0], t.colors[0]),
           Deal(StripedFlags(q.numbers), false, false, true),
           Deal(q.numbers, 8, s.numbers[0], t.numbers[0]))
  }

  /** A shuffle only moves values, so bounds on all of them still hold. */
  lemma ShuffleStaysInRange(s: seq<int>, draws: seq<int>, lo: int, hi: int)
    requires DrawsFor(draws, |s|) && forall k :: 0 <= k < |s| ==> lo <= s[k] <= hi
    ensures forall m :: 0 <= m < |s| ==> lo <= Shuffle(s, draws)[m] <= hi
  {
    ShuffledIsReindexing(s, draws, |s|);
  }

  /** The solids keep their numbers, 1 to 7. */
  lemma SolidNumbersKept(shuffle: bool, draws: seq<int>)
    requires shuffle ==> RackDraws(draws)
    ensures multiset(SolidsOf(shuffle, draws).numbers) == multiset(SolidNumbers)
  {
    if shuffle {
      assert Paired(Solids.colors, Solids.numbers);
      ShuffleGroupFacts(Solids, draws[..7]);
    }
  }

  /** Each solid keeps its colour. */
  lemma SolidsPaired(shuffle: bool, draws: seq<int>)
    requires shuffle ==> RackDraws(draws)
    ensures Paired(SolidsOf(shuffle, draws).colors, SolidsOf(shuffle, draws).numbers)
  {
    assert Paired(Solids.colors, Solids.numbers);
    if shuffle {
      ShuffleGroupFacts(Solids, draws[..7]);
    }
  }

  /** The solid that goes to the fixed place is a solid. */
  lemma FirstSolid(shuffle: bool, draws: seq<int>)
    requires shuffle ==> RackDraws(draws)
    ensures 1 <= SolidsOf(shuffle, draws).numbers[0] <= 7
  {
    if shuffle {
      ShuffleStaysInRange(SolidNumbers, draws[..7], 1, 7);
    }
  }

  /** The stripes keep their numbers, 9 to 15. */
  lemma StripeNumbersKept(shuffle: bool, draws: seq<int>)
    requires shuffle ==> RackDraws(draws)
    ensures multiset(StripesOf(shuffle, draws).numbers) == multiset(StripeNumbers)
  {
    if shuffle {
      assert Paired(Stripes.colors, Stripes.numbers);
      ShuffleGroupFacts(Stripes, draws[7..14]);
    }
  }

  /** Each stripe keeps its colour. */
  lemma StripesPaired(shuffle: bool, draws: seq<int>)
    requires shuffle ==> RackDraws(draws)
    ensures Paired(StripesOf(shuffle, draws).colors, StripesOf(shuffle, draws).numbers)
  {
    assert Paired(Stripes.colors, Stripes.numbers);
    if shuffle {
      ShuffleGroupFacts(Stripes, draws[7..14]);
    }
  }

  /** The stripe that goes to the fixed place is a stripe. */
  lemma FirstStripe(shuffle: bool, draws: seq<int>)
    requires shuffle ==> RackDraws(draws)
    ensures 9 <= StripesOf(shuffle, draws).numbers[0] <= 15
  {
    if shuffle {
      ShuffleStaysInRange(StripeNumbers, draws[7..14], 9, 15);
    }
  }

  /** The queue holds the rest of both groups. */
  lemma QueueNumbersKept(shuffle: bool, draws: seq<int>)
    requires shuffle ==> RackDraws(draws)
    ensures multiset(QueueOf(shuffle, draws).numbers)
            == multiset(SolidsOf(shuffle, draws).numbers[1..]) + multiset(StripesOf(shuffle, draws).numbers[1..])
  {
    var s, t := SolidsOf(shuffle, draws), StripesOf(shuffle, draws);
    var qn := s.numbers[1..] + t.numbers[1..];
    if shuffle {
      ShuffledPermutes(qn, draws[14..], 12);
    }
  }

  /** Each queued ball keeps its colour. */
  lemma QueuePaired(shuffle: bool, draws: seq<int>)
    requires shuffle ==> RackDraws(draws)
    ensures Paired(QueueOf(shuffle, draws).colors, QueueOf(shuffle, draws).numbers)
  {
    SolidsPaired(shuffle, draws);
    StripesPaired(shuffle, draws);
    var s, t := SolidsOf(shuffle, draws), StripesOf(shuffle, draws);
    var q0 := Group(s.colors[1..] + t.colors[1..], s.numbers[1..] + t.numbers[1..]);
    assert Paired(q0.colors, q0.numbers);
    if shuffle {
      ShuffledKeepsPairs(q0.colors, q0.numbers, draws[14..]);
    }
  }

  lemma DealMultiset<T>(queue: seq<T>, at4: T, at10: T, at14: T)
    requires |queue| == 12
    ensures multiset(Deal(queue, at4, at10, at14)) == multiset(queue) + multiset{at4, at10, at14}
  {
    assert queue == queue[..4] + queue[4..9] + queue[9..];
  }

  lemma HeadTailMultiset<T>(s: seq<T>)
    requires |s| > 0
    ensures multiset(s) == multiset{s[0]} + multiset(s[1..])
  {
    assert s == [s[0]] + s[1..];
  }

  lemma OneToFifteenSplit()
    ensures OneToFifteen == SolidNumbers + [8] + StripeNumbers
  {
  }

  /**
   * Dealing two groups whose heads go to fixed places and whose tails
   * form the queue keeps every element: the deal is a permutation of the
   * first group, the extra element and the second group.
   */
  lemma DealKeepsElements<T>(sn: seq<T>, tn: seq<T>, qn: seq<T>, st: seq<T>, tt: seq<T>, e: T)
    requires |sn| == 7 && |tn| == 7 && |qn| == 12
    requires multiset(sn) == multiset(st) && multiset(tn) == multiset(tt)
    requires multiset(qn) == multiset(sn[1..]) + multiset(tn[1..])
    ensures multiset(Deal(qn, e, sn[0], tn[0])) == multiset(st + [e] + tt)
  {
    DealMultiset(qn, e, sn[0], tn[0]);
    HeadTailMultiset(sn);
    HeadTailMultiset(tn);
  }

  /** The rack holds each of the numbers 1 to 15 exactly once. */
  lemma RackNumbersPermutation(shuffle: bool, draws: seq<int>)
    requires shuffle ==> RackDraws(draws)
    ensures multiset(RackLayout(shuffle, draws).numbers) == multiset(OneToFifteen)
  {
    SolidNumbersKept(shuffle, draws);
    StripeNumbersKept(shuffle, draws);
    QueueNumbersKept(shuffle, draws);
    DealKeepsElements(SolidsOf(shuffle, draws).numbers, StripesOf(shuffle, draws).numbers,
                      QueueOf(shuffle, draws).numbers, SolidNumbers, StripeNumbers, 8);
    OneToFifteenSplit();
  }

  /** Index 10 holds a plain ball and index 14 a striped one. */
  lemma RackCorners(shuffle: bool, draws: seq<int>)
    requires shuffle ==> RackDraws(draws)
    ensures var n := RackLayout(shuffle, draws).numbers;
            1 <= n[10] <= 7 && 9 <= n[14] <= 15
  {
    FirstSolid(shuffle, draws);
    FirstStripe(shuffle, draws);
  }

  /** A ball is striped exactly when its number is above 8. */
  lemma RackStripedByNumber(shuffle: bool, draws: seq<int>)
    requires shuffle ==> RackDraws(draws)
    ensures var r := RackLayout(shuffle, draws);
            forall i :: 0 <= i < BallCount ==> r.striped[i] == (r.numbers[i] > 8)
  {
    FirstSolid(shuffle, draws);
    FirstStripe(shuffle, draws);
    var r := RackLayout(shuffle, draws);
    var sn, tn, qn := SolidsOf(shuffle, draws).numbers, StripesOf(shuffle, draws).numbers, QueueOf(shuffle, draws).numbers;
    forall i | 0 <= i < BallCount
      ensures r.striped[i] == (r.numbers[i] > 8)
    {
      DealAt(qn, 8, sn[0], tn[0], i);
      DealAt(StripedFlags(qn), false, false, true, i);
    }
  }

  /** Every ball carries the colour of its number. */
  lemma RackColorsMatchNumbers(shuffle: bool, draws: seq<int>)
    requires shuffle ==> RackDraws(draws)
    ensures var r := RackLayout(shuffle, draws);
            Paired(r.colors, r.numbers)
  {
    SolidsPaired(shuffle, draws);
    StripesPaired(shuffle, draws);
    QueuePaired(shuffle, draws);
    var r := RackLayout(shuffle, draws);
    var s, t, q := SolidsOf(shuffle, draws), StripesOf(shuffle, draws), QueueOf(shuffle, draws);
    forall i | 0 <= i < BallCount
      ensures r.colors[i] == ColorOf(r.numbers[i])
    {
      DealAt(q.colors, Black, s.colors[0], t.colors[0], i);
      DealAt(q.numbers, 8, s.numbers[0], t.numbers[0], i);
    }
  }

  /** Without the shuffles the rack is the fixed default order. */
  lemma RackUnshuffled(draws: seq<int>)
    ensures RackLayout(false, draws).numbers == [2, 3, 4, 5, 8, 6, 7, 10, 11, 12, 1, 13, 14, 15, 9]
  {
  }

  /** The solid group's arrays, shuffled when asked. */
  method SolidArrays(shuffle: bool, draws: seq<int>) returns (colors: array<Color>, numbers: array<int>)
    requires shuffle ==> RackDraws(draws)
    ensures fresh(colors) && fresh(numbers)
    ensures colors[..] == SolidsOf(shuffle, draws).colors && numbers[..] == SolidsOf(shuffle, draws).numbers
  {
    colors := new Color[][EbpYellow, EbpBlue, EbpRed, EbpPurple, EbpOrange, EbpGreen, EbpBrown];
    numbers := new int[][1, 2, 3, 4, 5, 6, 7];
    assert colors[..] == SolidColors && numbers[..] == SolidNumbers;
    if shuffle {
      ShuffleColorsAndNumbers(colors, numbers, 7, draws[..7]);
    }
  }

  /** The striped group's arrays, shuffled when asked. */
  method StripeArrays(shuffle: bool, draws: seq<int>) returns (colors: array<Color>, numbers: array<int>)
    requires shuffle ==> RackDraws(draws)
    ensures fresh(colors) && fresh(numbers)
    ensures colors[..] == StripesOf(shuffle, draws).colors && numbers[..] == StripesOf(shuffle, draws).numbers
  {
    colors := new Color[][EbpYellow, EbpBlue, EbpRed, EbpPurple, EbpOrange, EbpGreen, EbpBrown];
    numbers := new int[][9, 10, 11, 12, 13, 14, 15];
    assert colors[..] == StripeColors && numbers[..] == StripeNumbers;
    if shuffle {
      ShuffleColorsAndNumbers(colors, numbers, 7, draws[7..14]);
    }
  }

  /** The queue: entries 1-6 of the solids, then entries 1-6 of the stripes. */
  method QueueArrays(solidColors: array<Color>, solidNumbers: array<int>,
                     stripeColors: array<Color>, stripeNumbers: array<int>)
      returns (colorQueue: array<Color>, numberQueue: array<int>)
    requires solidColors.Length == 7 && solidNumbers.Length == 7
    requires stripeColors.Length == 7 && stripeNumbers.Length == 7
    ensures fresh(colorQueue) && fresh(numberQueue)
    ensures colorQueue[..] == solidColors[1..] + stripeColors[1..]
    ensures numberQueue[..] == solidNumbers[1..] + stripeNumbers[1..]
  {
    colorQueue := new Color[12](_ => Black);
    numberQueue := new int[12];
    for i := 1 to 7
      invariant forall k :: 0 <= k < i - 1 ==> colorQueue[k] == solidColors[k + 1] && numberQueue[k] == solidNumbers[k + 1]
      invariant forall k :: 6 <= k < i + 5 ==> colorQueue[k] == stripeColors[k - 5] && numberQueue[k] == stripeNumbers[k - 5]
    {
      colorQueue[i - 1] := solidColors[i];
      colorQueue[i + 5] := stripeColors[i];
      numberQueue[i - 1] := solidNumbers[i];
      numberQueue[i + 5] := stripeNumbers[i];
    }
  }

  /**
   * The final loop: the 8 at index 4, the first solid at 10, the first
   * stripe at 14, and the queue, in order, everywhere else.
   */
  method DealArrays(colors: array<Color>, striped: array<bool>, numbers: array<int>,
                    colorQueue: array<Color>, numberQueue: array<int>,
                    solidColor: Color, solidNumber: int, stripeColor: Color, stripeNumber: int)
    requires colors.Length == BallCount && striped.Length == BallCount && numbers.Length == BallCount
    requires colorQueue.Length == 12 && numberQueue.Length == 12
    modifies colors, striped, numbers
    ensures colors[..] == Deal(old(colorQueue[..]), Black, solidColor, stripeColor)
    ensures striped[..] == Deal(StripedFlags(old(numberQueue[..])), false, false, true)
    ensures numbers[..] == Deal(old(numberQueue[..]), 8, solidNumber, stripeNumber)
  {
    ghost var qc, qn := colorQueue[..], numberQueue[..];
    ghost var rc, rs, rn := Deal(qc, Black, solidColor, stripeColor),
                            Deal(StripedFlags(qn), false, false, true),
                            Deal(qn, 8, solidNumber, stripeNumber);
    var q := 0;
    for i := 0 to BallCount
      invariant q == QueueIndex(i)
      invariant colorQueue[..] == qc && numberQueue[..] == qn
      invariant forall m :: 0 <= m < i ==> colors[m] == rc[m] && striped[m] == rs[m] && numbers[m] == rn[m]
    {
      DealAt(qc, Black, solidColor, stripeColor, i);
      DealAt(StripedFlags(qn), false, false, true, i);
      DealAt(qn, 8, solidNumber, stripeNumber, i);
      if i == 4 {
        colors[i] := Black;
        numbers[i] := 8;
        striped[i] := false;
      } else if i == 10 {
        colors[i] := solidColor;
        numbers[i] := solidNumber;
        striped[i] := false;
      } else if i == 14 {
        colors[i] := stripeColor;
        numbers[i] := stripeNumber;
        striped[i] := true;
      } else {
        colors[i] := colorQueue[q];
        numbers[i] := numberQueue[q];
        striped[i] := numbers[i] > 8;
        q := q + 1;
      }
    }
  }

  /**
   * prepareBallData: shuffle each group, queue all but each group's first
   * ball, shuffle the queue, then fill the 15 places.
   */
  method PrepareBallData(colors: array<Color>, striped: array<bool>, numbers: array<int>,
                         shuffle: bool, draws: seq<int>)
    requires colors.Length == BallCount && striped.Length == BallCount && numbers.Length == BallCount
    requires shuffle ==> RackDraws(draws)
    modifies colors, striped, numbers
    ensures Layout(colors[..], striped[..], numbers[..]) == RackLayout(shuffle, draws)
  {
    var solidColors, solidNumbers := SolidArrays(shuffle, draws);
    var stripeColors, stripeNumbers := StripeArrays(shuffle, draws);
    var colorQueue, numberQueue := QueueArrays(solidColors, solidNumbers, stripeColors, stripeNumbers);
    if shuffle {
      ShuffleColorsAndNumbers(colorQueue, numberQueue, 12, draws[14..]);
    }
    DealArrays(colors, striped, numbers, colorQueue, numberQueue,
               solidColors[0], solidNumbers[0], stripeColors[0], stripeNumbers[0]);
  }
}
