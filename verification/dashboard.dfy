/** The dashboard's figures: the total balance over the accounts, the
    month's gap between revenue and expenses, and each active project's
    margin, margin percentage and badge. */
module Dashboard {
  import opened Common
  import opened Types

  /** `Number(c.solde_actuel || 0)`: an account without a current balance
      counts for 0. */
  function Balance(c: CompteBancaire): real {
    c.solde_actuel.GetOr(0.0)
  }

  /** `soldes.reduce((s, c) => s + Number(c.solde_actuel || 0), 0)`: the
      running sum from the first account to the last. */
  function SoldeTotal(soldes: seq<CompteBancaire>): real {
    if soldes == [] then 0.0
    else SoldeTotal(soldes[..|soldes| - 1]) + Balance(soldes[|soldes| - 1])
  }

  /** The total over two lists of accounts is the sum of their totals. */
  lemma {:induction false} SoldeTotalAppend(a: seq<CompteBancaire>, b: seq<CompteBancaire>)
    ensures SoldeTotal(a + b) == SoldeTotal(a) + SoldeTotal(b)
    decreases |b|
  {
    if b != [] {
      var b' := b[..|b| - 1];
      assert (a + b)[..|a + b| - 1] == a + b';
      SoldeTotalAppend(a, b');
    } else {
      assert a + b == a;
    }
  }

  /** The accounts that report a current balance, in order. */
  function Reporting(soldes: seq<CompteBancaire>): (r: seq<CompteBancaire>)
    ensures |r| <= |soldes|
    ensures forall c :: c in r ==> c in soldes && c.solde_actuel.Some?
  {
    if soldes == [] then []
    else
      var front := Reporting(soldes[..|soldes| - 1]);
      var last := soldes[|soldes| - 1];
      assert forall c :: c in soldes[..|soldes| - 1] ==> c in soldes;
      if last.solde_actuel.Some? then front + [last] else front
  }

  /** Accounts without a balance change nothing: the total is the total
      over the accounts that report one. */
  lemma {:induction false} MissingBalancesIgnored(soldes: seq<CompteBancaire>)
    ensures SoldeTotal(soldes) == SoldeTotal(Reporting(soldes))
  {
    if soldes != [] {
      var front := soldes[..|soldes| - 1];
      var last := soldes[|soldes| - 1];
      MissingBalancesIgnored(front);
      if last.solde_actuel.Some? {
        SoldeTotalAppend(Reporting(front), [last]);
        assert [last][..0] == [];
      }
    }
  }

  /** With every reported balance non-negative the total is non-negative,
      and it is at least each single balance. */
  lemma {:induction false} SoldeTotalBounds(soldes: seq<CompteBancaire>)
    requires forall c :: c in soldes ==> Balance(c) >= 0.0
    ensures SoldeTotal(soldes) >= 0.0
    ensures forall c :: c in soldes ==> SoldeTotal(soldes) >= Balance(c)
  {
    if soldes != [] {
      var front := soldes[..|soldes| - 1];
      assert forall c :: c in front ==> c in soldes;
      SoldeTotalBounds(front);
      assert forall c :: c in soldes ==> c in front || c == soldes[|soldes| - 1];
    }
  }

  // ---------------------------------------------------------------------
  // The month

  /** `ecart`, and whether it is shown as a gain (`ecart >= 0`). */
  function Ecart(revenus: real, depenses: real): (e: real)
    ensures e + depenses == revenus
  {
    revenus - depenses
  }

  predicate EcartShownAsGain(revenus: real, depenses: real) {
    Ecart(revenus, depenses) >= 0.0
  }

  /** The gap is shown as a gain exactly when revenue covers expenses. */
  lemma GainIffCovered(revenus: real, depenses: real)
    ensures EcartShownAsGain(revenus, depenses) <==> revenus >= depenses
  {
  }

  // ---------------------------------------------------------------------
  // Active projects

  /** `Number(p.revenus) - Number(p.depenses)`: NaN when either is absent. */
  function Marge(p: Projet): (m: Num)
    ensures m.Finite? <==> p.revenus.Some? && p.depenses.Some?
    ensures m.Finite? ==> m.value == p.revenus.value - p.depenses.value
  {
    NumberOf(p.revenus).Minus(NumberOf(p.depenses))
  }

  /** `Number(p.revenus) > 0 ? (marge / Number(p.revenus)) * 100 : 0` */
  function PctMarge(p: Projet): (pct: Num) {
    var rev := NumberOf(p.revenus);
    if rev.IsPositive() then
      (match Marge(p)
       case Finite(m) => Finite(m / rev.value * 100.0)
       case NaN => NaN)
    else Finite(0.0)
  }

  /** The share of revenue `r` kept after expenses `d`, in percent: at most
      100 when `d` is not negative, exactly 100 when it is 0, and negative
      exactly when `d` exceeds `r`. */
  lemma MarginShare(r: real, d: real)
    requires r > 0.0
    ensures d >= 0.0 ==> (r - d) / r * 100.0 <= 100.0
    ensures d == 0.0 ==> (r - d) / r * 100.0 == 100.0
    ensures (r - d) / r * 100.0 < 0.0 <==> d > r
  {
    var q := (r - d) / r;
    assert q * r == r - d;
    if d >= 0.0 {
      assert (q - 1.0) * r <= 0.0;
    }
    assert q < 0.0 <==> q * r < 0.0;
  }

  /** Without positive revenue the percentage is 0; with it, the
      percentage is the share of the revenue kept, at most 100, and it is
      negative exactly when expenses exceed revenue. */
  lemma {:induction false} PctMargeLaws(p: Projet)
    ensures !(p.revenus.Some? && p.revenus.value > 0.0) ==> PctMarge(p) == Finite(0.0)
    ensures p.revenus.Some? && p.revenus.value > 0.0 && p.depenses.None? ==> PctMarge(p).NaN?
    ensures p.revenus.Some? && p.revenus.value > 0.0 && p.depenses.Some? ==>
              var r := p.revenus.value;
              var d := p.depenses.value;
              PctMarge(p) == Finite((r - d) / r * 100.0)
              && (d >= 0.0 ==> PctMarge(p).value <= 100.0)
              && (PctMarge(p).value < 0.0 <==> d > r)
  {
    if p.revenus.Some? && p.revenus.value > 0.0 && p.depenses.Some? {
      MarginShare(p.revenus.value, p.depenses.value);
    }
  }

  /** `marge >= 0 ? 'default' : 'destructive'`; NaN compares false, so a
      project with a figure missing gets the destructive badge. */
  predicate BadgeDestructive(p: Projet) {
    !(Marge(p).Finite? && Marge(p).value >= 0.0)
  }

  /** With both figures present the badge is destructive exactly when the
      project loses money. */
  lemma BadgeIffLoss(p: Projet)
    requires p.revenus.Some? && p.depenses.Some?
    ensures BadgeDestructive(p) <==> p.depenses.value > p.revenus.value
  {
  }

  /** With positive revenue, the badge and the percentage it displays agree:
      destructive exactly when the percentage is negative or NaN. */
  lemma {:induction false} BadgeMatchesPct(p: Projet)
    requires p.revenus.Some? && p.revenus.value > 0.0
    ensures BadgeDestructive(p) <==> !(PctMarge(p).Finite? && PctMarge(p).value >= 0.0)
  {
    PctMargeLaws(p);
  }
}
