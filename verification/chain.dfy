/** Chain_FFWD_ReLU of models.py: a feed-forward stack of robust linear
    links named "l0", "l1", ..., with a ReLU after every link but the last. */
module Chain {
  import opened Numerics
  import opened Stats
  import opened Outcomes
  import opened LinearRobust

  // ---- link names ----

  function Digit(n: nat): char
    requires n < 10
  {
    ('0' as int + n) as char
  }

  /** str(n) for a natural number: its decimal digits, most significant
      first, with no leading zeros. */
  function Decimal(n: nat): (s: string)
    ensures |s| > 0
  {
    if n < 10 then [Digit(n)] else Decimal(n / 10) + [Digit(n % 10)]
  }

  function DigitValue(c: char): int {
    c as int - '0' as int
  }

  /** int(s) for a string of decimal digits. */
  function ParseDecimal(s: string): int {
    if |s| == 0 then 0 else ParseDecimal(s[..|s| - 1]) * 10 + DigitValue(s[|s| - 1])
  }

  /** Reading the digits back gives the number. */
  lemma {:induction false} DecimalRoundTrip(n: nat)
    ensures ParseDecimal(Decimal(n)) == n
  {
    if n >= 10 {
      DecimalRoundTrip(n / 10);
      var s := Decimal(n);
      assert s[..|s| - 1] == Decimal(n / 10);
    }
  }

  /** Distinct numbers have distinct decimal strings. */
  lemma DecimalInjective(a: nat, b: nat)
    ensures Decimal(a) == Decimal(b) <==> a == b
  {
    if Decimal(a) == Decimal(b) {
      DecimalRoundTrip(a);
      DecimalRoundTrip(b);
    }
  }

  /** "l" + str(i) */
  function LinkName(i: nat): string {
    "l" + Decimal(i)
  }

  lemma LinkNamesDistinct(i: nat, j: nat)
    ensures LinkName(i) == LinkName(j) <==> i == j
  {
    if LinkName(i) == LinkName(j) {
      assert LinkName(i)[1..] == Decimal(i);
      assert LinkName(j)[1..] == Decimal(j);
      DecimalInjective(i, j);
    }
  }

  // ---- construction ----

  /** One Linear_Robust child: its name, in_size, out_size, robustifier and
      nfactor. */
  datatype Link = Link(name: string, inSize: nat, outSize: nat, rob: Option<Robustifier>, nfactor: bool)

  datatype ChainModel = ChainModel(links: seq<Link>, nobias: bool)

  /** Consecutive links fit together and every link carries its position's
      name. */
  predicate WellFormed(c: ChainModel) {
    && (forall i :: 0 <= i < |c.links| ==> c.links[i].name == LinkName(i))
    && (forall i :: 0 <= i < |c.links| - 1 ==> c.links[i].outSize == c.links[i + 1].inSize)
  }

  /** The child links: link i maps dims[i] inputs to dims[i + 1] outputs
      with robustifiers[i] and nfactors[i]. Their names are pairwise
      distinct, so looking a link up by name finds that one link;
      consecutive links fit; and the chain as a whole maps dims[0] inputs
      to dims[|dims| - 1] outputs. */
  function MakeLinks(dims: seq<nat>, robs: seq<Option<Robustifier>>, nfactors: seq<bool>): (ls: seq<Link>)
    requires |dims| == |robs| + 1 && |nfactors| >= |robs|
    ensures |ls| == |robs|
    ensures forall i, j :: 0 <= i < |ls| && 0 <= j < |ls| ==> (ls[i].name == ls[j].name <==> i == j)
    ensures forall i :: 0 <= i < |ls| - 1 ==> ls[i].outSize == ls[i + 1].inSize
    ensures |ls| > 0 ==> ls[0].inSize == dims[0] && ls[|ls| - 1].outSize == dims[|dims| - 1]
  {
    LinkNamesInjective();
    seq(|robs|, i requires 0 <= i < |robs| => Link(LinkName(i), dims[i], dims[i + 1], robs[i], nfactors[i]))
  }

  /** LinkNamesDistinct for every pair of positions at once. */
  lemma LinkNamesInjective()
    ensures forall i: nat, j: nat :: LinkName(i) == LinkName(j) <==> i == j
  {
    forall i: nat, j: nat ensures LinkName(i) == LinkName(j) <==> i == j {
      LinkNamesDistinct(i, j);
    }
  }

  /** __init__(dims, robustifiers, nfactors, nobias): num_links is
      len(dims) - 1, which must equal len(robustifiers); nfactors is read at
      every link index, so a shorter list raises IndexError. Otherwise link
      i is named "l" + str(i) and is built from dims[i], dims[i + 1],
      robustifiers[i] and nfactors[i]. */
  function NewChain(dims: seq<nat>, robs: seq<Option<Robustifier>>, nfactors: seq<bool>, nobias: bool)
    : (r: Result<ChainModel>)
    ensures r.Err? && r.error.ValueError? <==> |dims| - 1 != |robs|
    ensures r.Err? && r.error.IndexError? <==> |dims| - 1 == |robs| && |nfactors| < |robs|
    ensures r.Err? ==> r.error.ValueError? || r.error.IndexError?
    ensures r.Ok? ==> WellFormed(r.value) && r.value.nobias == nobias && |r.value.links| == |robs|
    ensures r.Ok? ==> forall i :: 0 <= i < |robs| ==>
      && r.value.links[i].inSize == dims[i] && r.value.links[i].outSize == dims[i + 1]
      && r.value.links[i].rob == robs[i] && r.value.links[i].nfactor == nfactors[i]
  {
    var numLinks := |dims| - 1;
    if numLinks != |robs| then
      Err(ValueError("The number of robustifiers must match the number of links."))
    else if |nfactors| < numLinks then
      Err(IndexError)
    else
      Ok(ChainModel(MakeLinks(dims, robs, nfactors), nobias))
  }

  // ---- evaluation ----

  /** The weights and (unless nobias) the bias of one link. */
  datatype Params = Params(W: seq<seq<real>>, b: Option<seq<real>>)

  /** The parameters have the shapes the links declare. */
  predicate Fits(c: ChainModel, ps: seq<Params>) {
    && |ps| == |c.links|
    && forall i :: 0 <= i < |ps| ==>
      && IsMatrix(ps[i].W, c.links[i].inSize) && |ps[i].W| == c.links[i].outSize
      && (ps[i].b.Some? <==> !c.nobias)
      && (ps[i].b.Some? ==> |ps[i].b.value| == c.links[i].outSize)
  }

  /** ch.functions.relu: max(0, y) entrywise. */
  function Relu(y: seq<seq<real>>): (z: seq<seq<real>>)
    ensures |z| == |y| && forall s :: 0 <= s < |y| ==> |z[s]| == |y[s]|
  {
    seq(|y|, s requires 0 <= s < |y| => seq(|y[s]|, j requires 0 <= j < |y[s]| => Max(y[s][j], 0.0)))
  }

  /** Applies link i to its input. */
  function Apply(c: ChainModel, ps: seq<Params>, i: nat, h: seq<seq<real>>): (y: seq<seq<real>>)
    requires Fits(c, ps) && i < |c.links| && IsMatrix(h, c.links[i].inSize)
    ensures |y| == |h| && IsMatrix(y, c.links[i].outSize)
  {
    Forward(h, ps[i].W, ps[i].b, c.links[i].inSize)
  }

  /** `out` after the first i passes of the loop in __call__: apply the
      link, then relu unless its name is the last link's name. */
  function Run(c: ChainModel, ps: seq<Params>, x: seq<seq<real>>, i: nat): (out: seq<seq<real>>)
    requires WellFormed(c) && Fits(c, ps) && i <= |c.links|
    requires |c.links| > 0 ==> IsMatrix(x, c.links[0].inSize)
    ensures |out| == |x|
    ensures 0 < i ==> IsMatrix(out, c.links[i - 1].outSize)
  {
    if i == 0 then x
    else
      var prev := Run(c, ps, x, i - 1);
      var y := Apply(c, ps, i - 1, prev);
      if c.links[i - 1].name != c.links[|c.links| - 1].name then Relu(y) else y
  }

  /** __call__(x): a single link is applied on its own; otherwise the loop
      runs over all links (and returns x when there are none). */
  function Call(c: ChainModel, ps: seq<Params>, x: seq<seq<real>>): (y: seq<seq<real>>)
    requires WellFormed(c) && Fits(c, ps)
    requires |c.links| > 0 ==> IsMatrix(x, c.links[0].inSize)
    ensures |y| == |x|
    ensures |c.links| > 0 ==> IsMatrix(y, c.links[|c.links| - 1].outSize)
  {
    if |c.links| == 1 then Apply(c, ps, 0, x) else Run(c, ps, x, |c.links|)
  }

  // ---- ReLU placement ----

  /** The input of link i when a ReLU follows every link before it. */
  function Hidden(c: ChainModel, ps: seq<Params>, x: seq<seq<real>>, i: nat): (h: seq<seq<real>>)
    requires WellFormed(c) && Fits(c, ps) && i < |c.links|
    requires IsMatrix(x, c.links[0].inSize)
    ensures |h| == |x| && IsMatrix(h, c.links[i].inSize)
  {
    if i == 0 then x else Relu(Apply(c, ps, i - 1, Hidden(c, ps, x, i - 1)))
  }

  /** Since the link names are distinct, the name test in the loop picks out
      exactly the links before the last one. */
  lemma {:induction false} RunIsHidden(c: ChainModel, ps: seq<Params>, x: seq<seq<real>>, i: nat)
    requires WellFormed(c) && Fits(c, ps) && i < |c.links|
    requires IsMatrix(x, c.links[0].inSize)
    ensures Run(c, ps, x, i) == Hidden(c, ps, x, i)
  {
    if i > 0 {
      RunIsHidden(c, ps, x, i - 1);
      LinkNamesDistinct(i - 1, |c.links| - 1);
    }
  }

  /** __call__ applies a ReLU after every link except the last, and none at
      all to the output; with no links it returns x. */
  lemma CallReluPlacement(c: ChainModel, ps: seq<Params>, x: seq<seq<real>>)
    requires WellFormed(c) && Fits(c, ps)
    requires |c.links| > 0 ==> IsMatrix(x, c.links[0].inSize)
    ensures |c.links| == 0 ==> Call(c, ps, x) == x
    ensures |c.links| > 0 ==>
      Call(c, ps, x) == Apply(c, ps, |c.links| - 1, Hidden(c, ps, x, |c.links| - 1))
  {
    var n := |c.links|;
    if n > 1 {
      RunIsHidden(c, ps, x, n - 1);
    }
  }

  /** Every entry a ReLU produces is non-negative and is either 0 or the
      entry it was given. */
  lemma ReluProperties(y: seq<seq<real>>, s: nat, j: nat)
    requires s < |y| && j < |y[s]|
    ensures Relu(y)[s][j] >= 0.0
    ensures Relu(y)[s][j] == (if y[s][j] < 0.0 then 0.0 else y[s][j])
  {
  }
}
