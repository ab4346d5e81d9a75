/** The duplicate guard: what counts as the same candidate, and how far apart two are. */
module Guard {
  import opened Records
  import opened Names
  import opened Ordering

  // ---- Normalisation ----

  /** Captured files; a name is its UTF-8 bytes. */
  type Candidate = map<Bytes, Bytes>

  const COLON: byte := 58

  function ByteRank(b: byte): int {
    b as int
  }

  /** Decimal digits as ASCII bytes. */
  function Ascii(digits: string): (bytes: Bytes)
    requires forall c | c in digits :: IsDigit(c)
    ensures |bytes| == |digits|
    ensures forall i | 0 <= i < |digits| :: bytes[i] as int == 48 + DigitValue(digits[i])
  {
    if digits == "" then [] else [(48 + DigitValue(digits[0])) as byte] + Ascii(digits[1..])
  }

  /** One length-prefixed field. */
  function Field(data: Bytes): Bytes {
    Ascii(Decimal(|data|)) + [COLON] + data
  }

  function Fields(names: seq<Bytes>, candidate: Candidate): Bytes
    requires forall name | name in names :: name in candidate
  {
    if names == [] then []
    else Field(names[0]) + Field(candidate[names[0]]) + Fields(names[1..], candidate)
  }

  /** Every captured file, in name order, unchanged and length-prefixed. */
  ghost function DefaultNormalize(candidate: Candidate): Bytes {
    Fields(SortedKeys(candidate.Keys, ByteRank), candidate)
  }

  lemma AsciiInjective(a: string, b: string)
    requires (forall c | c in a :: IsDigit(c)) && (forall c | c in b :: IsDigit(c))
    requires Ascii(a) == Ascii(b)
    ensures a == b
  {
    forall i | 0 <= i < |a|
      ensures a[i] == b[i]
    {
      assert Ascii(a)[i] == Ascii(b)[i];
    }
  }

  lemma SameLead(whole: Bytes, a: Bytes, b: Bytes)
    requires a + [COLON] <= whole && b + [COLON] <= whole && COLON !in a && COLON !in b
    ensures a == b
  {
    assert whole[|a|] == COLON && whole[|b|] == COLON;
    assert a == whole[..|a|] && b == whole[..|b|];
    assert |a| == |b|;
  }

  /** A field at the front of a byte string can be read back in only one way. */
  lemma FieldDecodes(x: Bytes, r: Bytes, y: Bytes, s: Bytes)
    requires Field(x) + r == Field(y) + s
    ensures x == y && r == s
  {
    var dx, dy := Ascii(Decimal(|x|)), Ascii(Decimal(|y|));
    var whole := Field(x) + r;
    assert whole == dx + ([COLON] + x + r) && whole == dy + ([COLON] + y + s);
    SameLead(whole, dx, dy);
    AsciiInjective(Decimal(|x|), Decimal(|y|));
    DecimalInjective(|x|, |y|);
    assert x == whole[|dx| + 1..|dx| + 1 + |x|] == y;
    assert r == whole[|dx| + 1 + |x|..] == s;
  }

  lemma PairDecodes(k: Bytes, v: Bytes, r: Bytes, l: Bytes, w: Bytes, s: Bytes)
    requires Field(k) + Field(v) + r == Field(l) + Field(w) + s
    ensures k == l && v == w && r == s
  {
    assert Field(k) + Field(v) + r == Field(k) + (Field(v) + r);
    assert Field(l) + Field(w) + s == Field(l) + (Field(w) + s);
    FieldDecodes(k, Field(v) + r, l, Field(w) + s);
    FieldDecodes(v, r, w, s);
  }

  lemma {:induction false} FieldsDecode(xs: seq<Bytes>, x: Candidate, ys: seq<Bytes>, y: Candidate)
    requires (forall name | name in xs :: name in x) && (forall name | name in ys :: name in y)
    requires Fields(xs, x) == Fields(ys, y)
    ensures xs == ys && forall name | name in xs :: x[name] == y[name]
  {
    if xs != [] && ys != [] {
      PairDecodes(xs[0], x[xs[0]], Fields(xs[1..], x), ys[0], y[ys[0]], Fields(ys[1..], y));
      FieldsDecode(xs[1..], x, ys[1..], y);
      assert xs == [xs[0]] + xs[1..] && ys == [ys[0]] + ys[1..];
    }
  }

  /** Different candidates never normalise to the same bytes. */
  lemma NormalizeInjective(x: Candidate, y: Candidate)
    requires DefaultNormalize(x) == DefaultNormalize(y)
    ensures x == y
  {
    var xs, ys := SortedKeys(x.Keys, ByteRank), SortedKeys(y.Keys, ByteRank);
    FieldsDecode(xs, x, ys, y);
    forall name
      ensures name in x <==> name in y
      ensures name in x ==> x[name] == y[name]
    {
      assert name in xs <==> name in x.Keys;
      assert name in ys <==> name in y.Keys;
    }
  }

  // ---- Edit mass ----

  function Max(a: nat, b: nat): nat {
    if a < b then b else a
  }

  /** The same bytes, `n` of them from `i` in one string and `j` in the other. */
  predicate Common(a: Bytes, b: Bytes, i: nat, j: nat, n: nat)
    decreases n
  {
    && i + n <= |a| && j + n <= |b|
    && (n > 0 ==> a[i] == b[j] && Common(a, b, i + 1, j + 1, n - 1))
  }

  /** How far two strings agree from `i` and `j` on. */
  function Agreement(a: Bytes, b: Bytes, i: nat, j: nat): (n: nat)
    requires i <= |a| && j <= |b|
    ensures i + n <= |a| && j + n <= |b|
    decreases |a| - i
  {
    if i == |a| || j == |b| || a[i] != b[j] then 0
    else
      1 + Agreement(a, b, i + 1, j + 1)
  }

  /** `size` equal bytes, at `i` in one string and `j` in the other. */
  datatype Block = Block(i: nat, j: nat, size: nat)

  /** The longest common block starting at or after (i, j) in row order; the earliest
      one among equals. */
  function Longest(a: Bytes, b: Bytes, i: nat, j: nat): (best: Block)
    requires i <= |a| && j <= |b|
    ensures best.i + best.size <= |a| && best.j + best.size <= |b|
    decreases |a| - i, |b| - j
  {
    if i == |a| then Block(0, 0, 0)
    else if j == |b| then Longest(a, b, i + 1, 0)
    else
      var here := Agreement(a, b, i, j);
      var rest := Longest(a, b, i, j + 1);
      if here >= rest.size then Block(i, j, here) else rest
  }

  lemma {:induction false} AgreementIsCommon(a: Bytes, b: Bytes, i: nat, j: nat)
    requires i <= |a| && j <= |b|
    ensures Common(a, b, i, j, Agreement(a, b, i, j))
    decreases |a| - i
  {
    if i < |a| && j < |b| && a[i] == b[j] {
      AgreementIsCommon(a, b, i + 1, j + 1);
    }
  }

  lemma {:induction false} LongestIsCommon(a: Bytes, b: Bytes, i: nat, j: nat)
    requires i <= |a| && j <= |b|
    ensures var best := Longest(a, b, i, j);
      a[best.i..best.i + best.size] == b[best.j..best.j + best.size]
    decreases |a| - i, |b| - j
  {
    if i < |a| && j == |b| {
      LongestIsCommon(a, b, i + 1, 0);
    } else if i < |a| {
      LongestIsCommon(a, b, i, j + 1);
      AgreementIsCommon(a, b, i, j);
      CommonSlices(a, b, i, j, Agreement(a, b, i, j));
    }
  }

  lemma {:induction false} AgreementIsMaximal(a: Bytes, b: Bytes, i: nat, j: nat, n: nat)
    requires Common(a, b, i, j, n)
    ensures n <= Agreement(a, b, i, j)
    decreases n
  {
    if n > 0 {
      AgreementIsMaximal(a, b, i + 1, j + 1, n - 1);
    }
  }

  lemma {:induction false} CommonSlices(a: Bytes, b: Bytes, i: nat, j: nat, n: nat)
    requires Common(a, b, i, j, n)
    ensures a[i..i + n] == b[j..j + n]
    decreases n
  {
    if n > 0 {
      CommonSlices(a, b, i + 1, j + 1, n - 1);
      assert a[i..i + n] == [a[i]] + a[i + 1..i + n];
      assert b[j..j + n] == [b[j]] + b[j + 1..j + n];
    }
  }

  /** No common block is longer, and none as long starts earlier in `a`, nor at the
      same place in `a` and earlier in `b`. */
  lemma {:induction false} LongestIsLongest(a: Bytes, b: Bytes, i: nat, j: nat, x: nat, y: nat, n: nat)
    requires i <= |a| && j <= |b| && 0 < n && Common(a, b, x, y, n)
    requires i < x || (i == x && j <= y)
    ensures var best := Longest(a, b, i, j);
      n <= best.size && (n == best.size ==> best.i < x || (best.i == x && best.j <= y))
    decreases |a| - i, |b| - j
  {
    if j == |b| {
      LongestIsLongest(a, b, i + 1, 0, x, y, n);
    } else if i == x && j == y {
      AgreementIsMaximal(a, b, x, y, n);
    } else {
      LongestIsLongest(a, b, i, j + 1, x, y, n);
    }
  }

  lemma {:induction false} CommonWithItself(a: Bytes, i: nat)
    requires i <= |a|
    ensures Common(a, a, i, i, |a| - i)
    decreases |a| - i
  {
    if i < |a| {
      CommonWithItself(a, i + 1);
    }
  }

  lemma LongestOfEqual(a: Bytes)
    requires a != []
    ensures Longest(a, a, 0, 0) == Block(0, 0, |a|)
  {
    CommonWithItself(a, 0);
    AgreementIsMaximal(a, a, 0, 0, |a|);
  }

  /** Two strings cut around their longest common block, and so on to the left and
      right; a gap of the given widths has nothing in common. */
  datatype MatchTree = Gap(na: nat, nb: nat) | Around(left: MatchTree, size: nat, right: MatchTree) {
    function WidthA(): nat {
      if Gap? then na else left.WidthA() + size + right.WidthA()
    }

    function WidthB(): nat {
      if Gap? then nb else left.WidthB() + size + right.WidthB()
    }

    /** The matching blocks in order, for strings starting at (i, j). */
    function Blocks(i: nat, j: nat): seq<Block> {
      if Gap? then []
      else
        var x, y := i + left.WidthA(), j + left.WidthB();
        left.Blocks(i, j) + [Block(x, y, size)] + right.Blocks(x + size, y + size)
    }

    /** The larger side of every gap. */
    function Mass(): nat {
      if Gap? then Max(na, nb) else left.Mass() + right.Mass()
    }

    /** The tree cuts exactly these strings, and its blocks are common to both. */
    ghost predicate Cuts(a: Bytes, b: Bytes) {
      && |a| == WidthA() && |b| == WidthB()
      && (Around? ==>
            var x, y := left.WidthA(), left.WidthB();
            && a[x..x + size] == b[y..y + size]
            && left.Cuts(a[..x], b[..y])
            && right.Cuts(a[x + size..], b[y + size..]))
    }
  }

  function Match(a: Bytes, b: Bytes): MatchTree
    decreases |a|, 1
  {
    MatchAround(a, b, Longest(a, b, 0, 0))
  }

  function MatchAround(a: Bytes, b: Bytes, best: Block): (tree: MatchTree)
    requires best.i + best.size <= |a| && best.j + best.size <= |b|
    decreases |a|, 0
  {
    if best.size == 0 then Gap(|a|, |b|)
    else
      Around(Match(a[..best.i], b[..best.j]), best.size,
             Match(a[best.i + best.size..], b[best.j + best.size..]))
  }

  /** One cut, around a block the halves' trees already surround. */
  lemma CutsAround(tree: MatchTree, a: Bytes, b: Bytes, best: Block)
    requires best.i + best.size <= |a| && best.j + best.size <= |b|
    requires a[best.i..best.i + best.size] == b[best.j..best.j + best.size]
    requires tree.Around? && tree.size == best.size
    requires tree.left.Cuts(a[..best.i], b[..best.j])
    requires tree.right.Cuts(a[best.i + best.size..], b[best.j + best.size..])
    ensures tree.Cuts(a, b)
  {
    CutsWidths(tree.left, a[..best.i], b[..best.j]);
    CutsWidths(tree.right, a[best.i + best.size..], b[best.j + best.size..]);
  }

  lemma CutsWidths(tree: MatchTree, a: Bytes, b: Bytes)
    requires tree.Cuts(a, b)
    ensures tree.WidthA() == |a| && tree.WidthB() == |b|
  {
  }

  lemma {:induction false} MatchCuts(a: Bytes, b: Bytes)
    ensures Match(a, b).Cuts(a, b)
    decreases |a|, 1
  {
    LongestIsCommon(a, b, 0, 0);
    AroundCuts(a, b, Longest(a, b, 0, 0));
  }

  lemma {:induction false} AroundCuts(a: Bytes, b: Bytes, best: Block)
    requires best.i + best.size <= |a| && best.j + best.size <= |b|
    requires a[best.i..best.i + best.size] == b[best.j..best.j + best.size]
    ensures MatchAround(a, b, best).Cuts(a, b)
    decreases |a|, 0
  {
    if best.size > 0 {
      MatchCuts(a[..best.i], b[..best.j]);
      MatchCuts(a[best.i + best.size..], b[best.j + best.size..]);
      CutsAround(MatchAround(a, b, best), a, b, best);
    }
  }

  /** Equal strings are one block with empty gaps around it. */
  lemma MatchOfEqual(a: Bytes)
    ensures Match(a, a).Mass() == 0
  {
    if a != [] {
      LongestOfEqual(a);
      assert Match(a, a) == Around(Match(a[..0], a[..0]), |a|, Match(a[|a|..], a[|a|..]));
    }
  }

  /** The sizes of the edits between consecutive blocks, from (i, j) on. */
  function Edits(blocks: seq<Block>, i: nat, j: nat): nat {
    if blocks == [] then 0
    else
      var next := blocks[0];
      (if next.i >= i && next.j >= j then Max(next.i - i, next.j - j) else 0)
      + Edits(blocks[1..], next.i + next.size, next.j + next.size)
  }

  /** Bytes added, removed, or replaced between two normalised candidates. */
  function EditMass(a: Bytes, b: Bytes): nat {
    Edits(Match(a, b).Blocks(0, 0) + [Block(|a|, |b|, 0)], 0, 0)
  }

  /** Walking the blocks adds up exactly the gaps. */
  lemma {:induction false} EditsAreMass(tree: MatchTree, i: nat, j: nat, blocks: seq<Block>, tail: seq<Block>)
    requires blocks == tree.Blocks(i, j) + tail
    requires tail != [] && tail[0].i == i + tree.WidthA() && tail[0].j == j + tree.WidthB()
    ensures Edits(blocks, i, j) == tree.Mass() + Edits(tail[1..], tail[0].i + tail[0].size, tail[0].j + tail[0].size)
  {
    match tree
    case Gap(_, _) =>
      assert blocks == tail;
    case Around(left, size, right) =>
      var x, y := i + left.WidthA(), j + left.WidthB();
      var after := right.Blocks(x + size, y + size) + tail;
      var rest := [Block(x, y, size)] + after;
      Regroup(left.Blocks(i, j), Block(x, y, size), right.Blocks(x + size, y + size), tail);
      EditsAreMass(left, i, j, blocks, rest);
      assert rest[1..] == after;
      EditsAreMass(right, x + size, y + size, after, tail);
  }

  lemma Regroup(before: seq<Block>, block: Block, after: seq<Block>, tail: seq<Block>)
    ensures before + [block] + after + tail == before + ([block] + (after + tail))
  {
  }

  lemma EditMassIsMass(a: Bytes, b: Bytes)
    ensures EditMass(a, b) == Match(a, b).Mass()
  {
    MatchCuts(a, b);
    EditsAreMass(Match(a, b), 0, 0, Match(a, b).Blocks(0, 0) + [Block(|a|, |b|, 0)], [Block(|a|, |b|, 0)]);
  }

  // ---- Against the Levenshtein distance ----

  function Min3(a: nat, b: nat, c: nat): nat {
    if a <= b && a <= c then a else if b <= c then b else c
  }

  /** Fewest single-byte insertions, deletions, and replacements from one to the other. */
  function Levenshtein(a: Bytes, b: Bytes): nat
    decreases |a| + |b|
  {
    if a == [] then |b|
    else if b == [] then |a|
    else
      Min3(1 + Levenshtein(a[1..], b), 1 + Levenshtein(a, b[1..]),
           Levenshtein(a[1..], b[1..]) + if a[0] == b[0] then 0 else 1)
  }

  lemma {:induction false} LevenshteinAtMostLonger(a: Bytes, b: Bytes)
    ensures Levenshtein(a, b) <= Max(|a|, |b|)
    decreases |a|
  {
    if a != [] && b != [] {
      LevenshteinAtMostLonger(a[1..], b[1..]);
    }
  }

  /** Equal bytes in front cost nothing. */
  lemma {:induction false} LevenshteinSkips(common: Bytes, a: Bytes, b: Bytes)
    ensures Levenshtein(common + a, common + b) <= Levenshtein(a, b)
  {
    if common == [] {
      assert common + a == a && common + b == b;
    } else {
      assert (common + a)[1..] == common[1..] + a && (common + b)[1..] == common[1..] + b;
      LevenshteinSkips(common[1..], a, b);
    }
  }

  /** Editing two halves separately is one way to edit the whole. */
  lemma {:induction false} LevenshteinSplits(a: Bytes, b: Bytes, c: Bytes, d: Bytes)
    ensures Levenshtein(a + c, b + d) <= Levenshtein(a, b) + Levenshtein(c, d)
    decreases |a| + |b|
  {
    if a == [] && b == [] {
      assert a + c == c && b + d == d;
    } else if a == [] {
      assert a + c == c && (b + d)[1..] == b[1..] + d;
      LevenshteinSplits(a, b[1..], c, d);
      assert a + c == [] ==> Levenshtein(a + c, b + d) == |b + d|;
    } else if b == [] {
      assert b + d == d && (a + c)[1..] == a[1..] + c;
      LevenshteinSplits(a[1..], b, c, d);
      LevenshteinToEmpty(c);
    } else {
      assert (a + c)[1..] == a[1..] + c && (b + d)[1..] == b[1..] + d;
      LevenshteinSplits(a[1..], b, c, d);
      LevenshteinSplits(a, b[1..], c, d);
      LevenshteinSplits(a[1..], b[1..], c, d);
    }
  }

  lemma LevenshteinToEmpty(a: Bytes)
    ensures Levenshtein(a, []) == |a|
  {
  }

  lemma AroundCommon(a: Bytes, b: Bytes, common: Bytes, c: Bytes, d: Bytes)
    ensures Levenshtein(a + (common + c), b + (common + d)) <= Levenshtein(a, b) + Levenshtein(c, d)
  {
    LevenshteinSplits(a, b, common + c, common + d);
    LevenshteinSkips(common, c, d);
  }

  lemma ThreeParts(a: Bytes, x: nat, y: nat)
    requires x <= y <= |a|
    ensures a == a[..x] + (a[x..y] + a[y..])
  {
  }

  /** Editing around a common block costs no more than editing its two sides. */
  lemma AroundBlock(a: Bytes, b: Bytes, x: nat, y: nat, size: nat)
    requires x + size <= |a| && y + size <= |b| && a[x..x + size] == b[y..y + size]
    ensures Levenshtein(a, b) <= Levenshtein(a[..x], b[..y]) + Levenshtein(a[x + size..], b[y + size..])
  {
    ThreeParts(a, x, x + size);
    ThreeParts(b, y, y + size);
    AroundCommon(a[..x], b[..y], a[x..x + size], a[x + size..], b[y + size..]);
  }

  lemma {:induction false} MassBoundsDistance(tree: MatchTree, a: Bytes, b: Bytes)
    requires tree.Cuts(a, b)
    ensures Levenshtein(a, b) <= tree.Mass()
  {
    match tree
    case Gap(_, _) =>
      LevenshteinAtMostLonger(a, b);
    case Around(left, size, right) =>
      var x, y := left.WidthA(), left.WidthB();
      MassBoundsDistance(left, a[..x], b[..y]);
      MassBoundsDistance(right, a[x + size..], b[y + size..]);
      AroundBlock(a, b, x, y, size);
  }

  lemma {:induction false} MassBoundsLengths(tree: MatchTree, a: Bytes, b: Bytes)
    requires tree.Cuts(a, b)
    ensures |a| <= |b| + tree.Mass() && |b| <= |a| + tree.Mass()
  {
    match tree
    case Gap(_, _) =>
    case Around(left, size, right) =>
      var x, y := left.WidthA(), left.WidthB();
      MassBoundsLengths(left, a[..x], b[..y]);
      MassBoundsLengths(right, a[x + size..], b[y + size..]);
  }

  lemma {:induction false} NoMassIsEqual(tree: MatchTree, a: Bytes, b: Bytes)
    requires tree.Cuts(a, b) && tree.Mass() == 0
    ensures a == b
  {
    match tree
    case Gap(_, _) =>
    case Around(left, size, right) =>
      var x, y := left.WidthA(), left.WidthB();
      NoMassIsEqual(left, a[..x], b[..y]);
      NoMassIsEqual(right, a[x + size..], b[y + size..]);
      EqualParts(a, b, x, y, size);
  }

  lemma EqualParts(a: Bytes, b: Bytes, x: nat, y: nat, size: nat)
    requires x + size <= |a| && y + size <= |b| && a[..x] == b[..y]
    requires a[x..x + size] == b[y..y + size] && a[x + size..] == b[y + size..]
    ensures a == b
  {
    ThreeParts(a, x, x + size);
    ThreeParts(b, y, y + size);
  }

  /** Edit mass is at least the edit distance and the difference in length, and is zero
      for equal candidates and for no others. */
  lemma EditMassMeasures(a: Bytes, b: Bytes)
    ensures Levenshtein(a, b) <= EditMass(a, b)
    ensures |a| <= |b| + EditMass(a, b) && |b| <= |a| + EditMass(a, b)
    ensures EditMass(a, b) == 0 <==> a == b
  {
    EditMassIsMass(a, b);
    MatchCuts(a, b);
    MassBoundsDistance(Match(a, b), a, b);
    MassBoundsLengths(Match(a, b), a, b);
    if a == b {
      MatchOfEqual(a);
    } else if Match(a, b).Mass() == 0 {
      NoMassIsEqual(Match(a, b), a, b);
    }
  }

  // ---- Verdicts ----

  datatype DuplicateGuard = DuplicateGuard(
    exactRepeats: nat,
    nearRepeats: nat,
    nearEditFloor: nat,
    nearEditPercent: nat,
    window: nat)
  {
    predicate Valid() {
      exactRepeats >= 1 && nearRepeats >= 1 && window >= 1 && nearEditPercent <= 100
    }

    /** The rejected candidates compared, the most recent ones. */
    function Recent(rejected: seq<Bytes>): seq<Bytes> {
      if |rejected| <= window then rejected else rejected[|rejected| - window..]
    }

    function Threshold(candidate: Bytes): nat {
      Max(nearEditFloor, |candidate| * nearEditPercent / 100)
    }
  }

  datatype Band = Exact | Near
  datatype Refusal = Refusal(band: Band, matches: nat, edit: nat)

  function CountEqual(items: seq<Bytes>, candidate: Bytes): nat {
    if items == [] then 0
    else CountEqual(items[..|items| - 1], candidate) + if items[|items| - 1] == candidate then 1 else 0
  }

  /** The masses of the different candidates within the threshold. */
  function NearMasses(items: seq<Bytes>, candidate: Bytes, threshold: nat): seq<nat> {
    if items == [] then []
    else
      var mass := EditMass(items[|items| - 1], candidate);
      NearMasses(items[..|items| - 1], candidate, threshold)
      + if items[|items| - 1] != candidate && mass <= threshold then [mass] else []
  }

  method LeastOf(masses: seq<nat>) returns (least: nat)
    ensures masses == [] ==> least == 0
    ensures masses != [] ==> least in masses && forall mass | mass in masses :: least <= mass
  {
    if masses == [] {
      return 0;
    }
    least := masses[0];
    for i := 1 to |masses|
      invariant least in masses && forall k | 0 <= k < i :: least <= masses[k]
    {
      if masses[i] < least {
        least := masses[i];
      }
    }
  }

  /** Why `candidate` is refused, or nothing. `rejected` is oldest first. */
  method Verdict(guard: DuplicateGuard, rejected: seq<Bytes>, candidate: Bytes) returns (refusal: Option<Refusal>)
    requires guard.Valid()
    ensures var recent := guard.Recent(rejected);
      var exact := CountEqual(recent, candidate);
      var near := NearMasses(recent, candidate, guard.Threshold(candidate));
      if exact >= guard.exactRepeats then refusal == Some(Refusal(Exact, exact + |near|, 0))
      else if exact + |near| >= guard.nearRepeats then
        && refusal.Some? && refusal.value.band == Near && refusal.value.matches == exact + |near|
        && (if near == [] then refusal.value.edit == 0
            else refusal.value.edit in near && forall mass | mass in near :: refusal.value.edit <= mass)
      else refusal == None
  {
    var threshold := guard.Threshold(candidate);
    var recent := guard.Recent(rejected);
    var exact: nat, near: seq<nat> := 0, [];
    for i := 0 to |recent|
      invariant exact == CountEqual(recent[..i], candidate)
      invariant near == NearMasses(recent[..i], candidate, threshold)
    {
      assert recent[..i + 1][..i] == recent[..i];
      var mass := EditMass(recent[i], candidate);
      EditMassMeasures(recent[i], candidate);
      if mass == 0 {
        exact := exact + 1;
      } else if mass <= threshold {
        near := near + [mass];
      }
    }
    assert recent[..|recent|] == recent;
    if exact >= guard.exactRepeats {
      return Some(Refusal(Exact, exact + |near|, 0));
    }
    if exact + |near| >= guard.nearRepeats {
      var edit := LeastOf(near);
      return Some(Refusal(Near, exact + |near|, edit));
    }
    return None;
  }
}
