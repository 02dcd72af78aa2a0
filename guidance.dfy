/** The rule that marks one column as the one the participant should be
    working on. It guides only: nothing stops an entry in another column.
    Chaos rotates Numbers, Letters, Shapes every four actions; Focus stays
    on a column until it holds twenty entries. */
module Guidance {
  import opened LabTypes

  /** Actions spent on one column before Chaos moves to the next. */
  const ChaosBlock: nat := 4

  /** Length of one full Chaos rotation through the three columns. */
  const ChaosPeriod: nat := 12

  /** The column the rotation visits after `c`. */
  function NextColumn(c: Column): Column
  {
    match c
    case Numbers => Letters
    case Letters => Shapes
    case Shapes => Numbers
  }

  lemma CycleFromPeriod(t: nat)
    ensures (t / ChaosBlock) % 3 == (t % ChaosPeriod) / ChaosBlock
  {
    var q, r := t / ChaosPeriod, t % ChaosPeriod;
    assert t == ChaosBlock * (3 * q) + r;
    assert t / ChaosBlock == 3 * q + r / ChaosBlock;
  }

  /** The active column after `totalActions` actions in Chaos mode: block
      number `totalActions / 4`, taken modulo the three columns. */
  function ChaosColumn(totalActions: nat): Column
  {
    var cycle := (totalActions / ChaosBlock) % 3;
    if cycle == 0 then Numbers else if cycle == 1 then Letters else Shapes
  }

  /** Of every twelve Chaos actions the first four go to Numbers, the next
      four to Letters and the last four to Shapes. */
  lemma ChaosColumnSpec(t: nat)
    ensures ChaosColumn(t) == Numbers <==> t % ChaosPeriod < ChaosBlock
    ensures ChaosColumn(t) == Letters <==> ChaosBlock <= t % ChaosPeriod < 2 * ChaosBlock
    ensures ChaosColumn(t) == Shapes <==> 2 * ChaosBlock <= t % ChaosPeriod
  {
    CycleFromPeriod(t);
  }

  /** The active column in Focus mode: the first column, in the order
      Numbers, Letters, that holds fewer than twenty entries, and Shapes
      once both of those are full. */
  function FocusColumn(nCount: nat, lCount: nat): (c: Column)
    ensures c == Numbers <==> nCount < Target
    ensures c == Letters <==> Target <= nCount && lCount < Target
    ensures c == Shapes <==> Target <= nCount && Target <= lCount
  {
    if nCount < Target then Numbers
    else if lCount < Target then Letters
    else Shapes
  }

  /** The column the app marks as active. Chaos looks only at the action
      counter, Focus only at the lengths of the numbers and letters
      histories. */
  function ActiveColumn(mode: Mode, totalActions: nat, nCount: nat, lCount: nat): (c: Column)
    ensures mode == Focus ==> (c == Numbers <==> nCount < Target)
    ensures mode == Focus ==> (c == Letters <==> Target <= nCount && lCount < Target)
    ensures mode == Focus ==> (c == Shapes <==> Target <= nCount && Target <= lCount)
  {
    if mode == Chaos then ChaosColumn(totalActions) else FocusColumn(nCount, lCount)
  }

  /** In Chaos mode the active column depends on the action counter alone,
      through its position in the twelve-action rotation. */
  lemma ActiveColumnChaos(t: nat, n: nat, l: nat, n': nat, l': nat)
    ensures ActiveColumn(Chaos, t, n, l) == ActiveColumn(Chaos, t, n', l')
    ensures ActiveColumn(Chaos, t, n, l) == Numbers <==> t % ChaosPeriod < ChaosBlock
    ensures ActiveColumn(Chaos, t, n, l) == Letters <==> ChaosBlock <= t % ChaosPeriod < 2 * ChaosBlock
    ensures ActiveColumn(Chaos, t, n, l) == Shapes <==> 2 * ChaosBlock <= t % ChaosPeriod
  {
    ChaosColumnSpec(t);
  }

  /** In Focus mode the active column ignores the action counter. */
  lemma ActiveColumnFocus(t: nat, t': nat, n: nat, l: nat)
    ensures ActiveColumn(Focus, t, n, l) == ActiveColumn(Focus, t', n, l)
  {
  }

  /** The Chaos column repeats with period twelve. */
  lemma ChaosPeriodic(t: nat)
    ensures ChaosColumn(t + ChaosPeriod) == ChaosColumn(t)
  {
    ChaosColumnSpec(t);
    ChaosColumnSpec(t + ChaosPeriod);
    assert (t + ChaosPeriod) % ChaosPeriod == t % ChaosPeriod;
  }

  /** One more action moves the position within the rotation by one,
      wrapping from the last position to the first. */
  lemma PeriodStep(t: nat)
    ensures (t + 1) % ChaosPeriod == if t % ChaosPeriod == ChaosPeriod - 1 then 0 else t % ChaosPeriod + 1
    ensures (t + 1) / ChaosPeriod == if t % ChaosPeriod == ChaosPeriod - 1 then t / ChaosPeriod + 1 else t / ChaosPeriod
  {
  }

  lemma BlockWithinPeriod(t: nat)
    ensures t % ChaosBlock == (t % ChaosPeriod) % ChaosBlock
  {
    var q := t / ChaosPeriod;
    assert t == ChaosBlock * (3 * q) + t % ChaosPeriod;
  }

  /** Within a block of four the Chaos column does not change; at the end
      of each block it moves to the next column. */
  lemma ChaosStep(t: nat)
    ensures t % ChaosBlock != 3 ==> ChaosColumn(t + 1) == ChaosColumn(t)
    ensures t % ChaosBlock == 3 ==> ChaosColumn(t + 1) == NextColumn(ChaosColumn(t))
  {
    PeriodStep(t);
    BlockWithinPeriod(t);
    ChaosColumnSpec(t);
    ChaosColumnSpec(t + 1);
  }

  // ---------------------------------------------------------------------
  // A participant who always works in the active column
  // ---------------------------------------------------------------------

  /** The lengths of the three histories. */
  datatype Counts = Counts(n: nat, l: nat, s: nat)

  function Bump(c: Counts, col: Column): Counts
  {
    match col
    case Numbers => c.(n := c.n + 1)
    case Letters => c.(l := c.l + 1)
    case Shapes => c.(s := c.s + 1)
  }

  /** One action in the column that is active for the lengths `c`; the
      action counter then equals the number of entries so far. */
  function GuidedStep(mode: Mode, c: Counts): Counts
  {
    Bump(c, ActiveColumn(mode, c.n + c.l + c.s, c.n, c.l))
  }

  /** The history lengths after `k` actions from a fresh start, each taken
      in the column that was active at the time. */
  function Guided(mode: Mode, k: nat): (c: Counts)
    ensures c.n + c.l + c.s == k
  {
    if k == 0 then Counts(0, 0, 0) else GuidedStep(mode, Guided(mode, k - 1))
  }

  /** The history lengths after `k` guided actions starting from the
      lengths `c`, taking the first action first. */
  function GuidedFrom(mode: Mode, c: Counts, k: nat): (r: Counts)
    ensures r.n + r.l + r.s == c.n + c.l + c.s + k
    decreases k
  {
    if k == 0 then c else GuidedFrom(mode, GuidedStep(mode, c), k - 1)
  }

  lemma {:induction false} GuidedFromSnoc(mode: Mode, c: Counts, k: nat)
    ensures GuidedFrom(mode, c, k + 1) == GuidedStep(mode, GuidedFrom(mode, c, k))
    decreases k
  {
    if k > 0 {
      GuidedFromSnoc(mode, GuidedStep(mode, c), k - 1);
    }
  }

  /** Counting guided actions from the last one back, or from the first one
      forward, gives the same lengths. */
  lemma {:induction false} GuidedFromZero(mode: Mode, k: nat)
    ensures GuidedFrom(mode, Counts(0, 0, 0), k) == Guided(mode, k)
  {
    if k > 0 {
      GuidedFromZero(mode, k - 1);
      GuidedFromSnoc(mode, Counts(0, 0, 0), k - 1);
    }
  }

  function Min(a: nat, b: nat): nat { if a < b then a else b }

  /** a - b, cut off at zero. */
  function Sub(a: nat, b: nat): nat { if a < b then 0 else a - b }

  /** The lengths after `k` Focus-guided actions: Numbers fills to twenty
      first, then Letters to twenty, and Shapes takes the rest. */
  function FocusCounts(k: nat): Counts
  {
    Counts(Min(k, Target), Min(Sub(k, Target), Target), Sub(k, 2 * Target))
  }

  /** The lengths after `q` full Chaos rotations and `r` more guided
      actions: four per column for each rotation, plus the part of the
      current rotation that reached the column. */
  function ChaosCounts(q: nat, r: nat): Counts
  {
    Counts(ChaosBlock * q + Min(r, ChaosBlock),
           ChaosBlock * q + Min(Sub(r, ChaosBlock), ChaosBlock),
           ChaosBlock * q + Sub(r, 2 * ChaosBlock))
  }

  lemma FocusCountsStep(j: nat)
    ensures GuidedStep(Focus, FocusCounts(j)) == FocusCounts(j + 1)
  {
    var p := FocusCounts(j);
    assert p.n + p.l + p.s == j;
  }

  /** Position `r` of a rotation is active in Numbers, Letters or Shapes
      as `r` lies in the first, second or last third. */
  lemma ChaosPosition(q: nat, r: nat)
    requires r < ChaosPeriod
    ensures ChaosColumn(ChaosPeriod * q + r)
            == if r < ChaosBlock then Numbers else if r < 2 * ChaosBlock then Letters else Shapes
  {
    ChaosColumnSpec(ChaosPeriod * q + r);
    assert (ChaosPeriod * q + r) % ChaosPeriod == r;
  }

  lemma ChaosCountsStep(q: nat, r: nat)
    requires r < ChaosPeriod
    ensures GuidedStep(Chaos, ChaosCounts(q, r))
            == if r == ChaosPeriod - 1 then ChaosCounts(q + 1, 0) else ChaosCounts(q, r + 1)
  {
    ChaosPosition(q, r);
  }

  /** Following the Focus guidance fills Numbers to twenty, then Letters to
      twenty, and puts everything after that into Shapes. */
  lemma {:induction false} FocusGuided(k: nat)
    ensures Guided(Focus, k) == FocusCounts(k)
  {
    if k > 0 {
      FocusGuided(k - 1);
      FocusCountsStep(k - 1);
    }
  }

  /** Following the Chaos guidance gives each column four entries per full
      rotation, plus the part of the current rotation that reached it. */
  lemma {:induction false} ChaosGuided(q: nat, r: nat)
    requires r < ChaosPeriod
    ensures Guided(Chaos, ChaosPeriod * q + r) == ChaosCounts(q, r)
    decreases q, r
  {
    var k := ChaosPeriod * q + r;
    if k > 0 {
      var q', r' := if r > 0 then q else q - 1, if r > 0 then r - 1 else ChaosPeriod - 1;
      assert k - 1 == ChaosPeriod * q' + r';
      var p := Guided(Chaos, k - 1);
      assert p == ChaosCounts(q', r') by { ChaosGuided(q', r'); }
      ChaosCountsStep(q', r');
    }
  }

  /** Sixty guided actions complete all three columns in either mode: the
      two modes differ in the order of the work, not in its amount. */
  lemma GuidedCompletion()
    ensures Guided(Focus, 3 * Target) == Counts(Target, Target, Target)
    ensures Guided(Chaos, 3 * Target) == Counts(Target, Target, Target)
  {
    FocusGuided(3 * Target);
    ChaosGuided(3 * Target / ChaosPeriod, 0);
  }
}
