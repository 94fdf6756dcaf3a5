/** What the balance tables mean: sums over the transfers that were added to them. */
module Totals {
  import opened Common
  import opened Sums
  import opened Model
  import opened Converters
  import opened MatrixTables

  /** What `addBalance` sees of one transfer: booked is the batch state it is booked under. */
  datatype Fact = Fact(payer: string, payee: string, currencyCode: string, booked: BatchState, amount: int)

  /** Transfer id to fact. */
  type Facts = map<string, Fact>

  /** Payer and payee being one participant, the loop adds the amount twice on both sides. */
  function Counted(f: Fact): int
  {
    if f.payer == f.payee then 2 * f.amount else f.amount
  }

  predicate DebitTouches(k: Key, f: Fact)
  {
    match k
    case ByParticipant(p, s, c) => p == f.payer && s == f.booked && c == f.currencyCode
    case ByCurrency(c) => c == f.currencyCode
    case ByState(s, c) => s == f.booked && c == f.currencyCode
  }

  predicate CreditTouches(k: Key, f: Fact)
  {
    match k
    case ByParticipant(p, s, c) => p == f.payee && s == f.booked && c == f.currencyCode
    case ByCurrency(c) => c == f.currencyCode
    case ByState(s, c) => s == f.booked && c == f.currencyCode
  }

  function Debits(facts: Facts, k: Key): map<string, int>
  {
    map x | x in facts && DebitTouches(k, facts[x]) :: Counted(facts[x])
  }

  function Credits(facts: Facts, k: Key): map<string, int>
  {
    map x | x in facts && CreditTouches(k, facts[x]) :: Counted(facts[x])
  }

  ghost function SidesOf(facts: Facts, k: Key): Sides
  {
    Sides(MapSum(Debits(facts, k)), MapSum(Credits(facts, k)))
  }

  function ParticipantKeys(facts: Facts): set<Key>
  {
    (set x | x in facts :: ByParticipant(facts[x].payer, facts[x].booked, facts[x].currencyCode)) +
    (set x | x in facts :: ByParticipant(facts[x].payee, facts[x].booked, facts[x].currencyCode))
  }

  function CurrencyKeys(facts: Facts): set<Key>
  {
    set x | x in facts :: ByCurrency(facts[x].currencyCode)
  }

  function StateKeys(facts: Facts): set<Key>
  {
    set x | x in facts :: ByState(facts[x].booked, facts[x].currencyCode)
  }

  ghost function TotalsOf(facts: Facts, keys: set<Key>): map<Key, Sides>
  {
    map k | k in keys :: SidesOf(facts, k)
  }

  /** The three tables hold, once per key, exactly the sums over the facts. */
  ghost predicate TablesShow(tb: Tables, facts: Facts, currencies: Currencies)
  {
    && RowsShow(tb.byParticipant, TotalsOf(facts, ParticipantKeys(facts)), currencies)
    && RowsShow(tb.byCurrency, TotalsOf(facts, CurrencyKeys(facts)), currencies)
    && RowsShow(tb.byStateAndCurrency, TotalsOf(facts, StateKeys(facts)), currencies)
  }

  ghost predicate GoodFact(f: Fact, currencies: Currencies)
  {
    0 < f.amount && Readable(f.amount, Decimals(currencies, f.currencyCode))
  }

  ghost predicate GoodFacts(facts: Facts, currencies: Currencies)
  {
    forall x :: x in facts ==> GoodFact(facts[x], currencies)
  }

  // ----- one more fact

  lemma OneMore(facts: Facts, x: string, f: Fact, k: Key)
    requires x !in facts
    ensures SidesOf(facts[x := f], k).debit == SidesOf(facts, k).debit + (if DebitTouches(k, f) then Counted(f) else 0)
    ensures SidesOf(facts[x := f], k).credit
            == SidesOf(facts, k).credit + (if CreditTouches(k, f) then Counted(f) else 0)
  {
    hide DebitTouches, CreditTouches, Counted;
    var more := facts[x := f];
    if DebitTouches(k, f) {
      assert Debits(more, k) == Debits(facts, k)[x := Counted(f)];
      MapSumInsert(Debits(facts, k), x, Counted(f));
    } else {
      assert Debits(more, k) == Debits(facts, k);
    }
    if CreditTouches(k, f) {
      assert Credits(more, k) == Credits(facts, k)[x := Counted(f)];
      MapSumInsert(Credits(facts, k), x, Counted(f));
    } else {
      assert Credits(more, k) == Credits(facts, k);
    }
  }

  /** A key nobody touches has no balance. */
  lemma Untouched(facts: Facts, k: Key)
    ensures (forall x :: x in facts ==> !DebitTouches(k, facts[x]) && !CreditTouches(k, facts[x])) ==>
              SidesOf(facts, k) == Sides(0, 0)
  {
    hide DebitTouches, CreditTouches, Counted;
    if forall x :: x in facts ==> !DebitTouches(k, facts[x]) && !CreditTouches(k, facts[x]) {
      assert Debits(facts, k) == map[];
      assert Credits(facts, k) == map[];
    }
  }

  lemma AtKeys(facts: Facts, k: Key)
    ensures At(TotalsOf(facts, ParticipantKeys(facts)), k)
            == if k.ByParticipant? then SidesOf(facts, k) else Sides(0, 0)
    ensures At(TotalsOf(facts, CurrencyKeys(facts)), k) == if k.ByCurrency? then SidesOf(facts, k) else Sides(0, 0)
    ensures At(TotalsOf(facts, StateKeys(facts)), k) == if k.ByState? then SidesOf(facts, k) else Sides(0, 0)
  {
    hide SidesOf, Counted;
    Untouched(facts, k);
  }

  /** The keys one more fact adds to each table. */
  lemma MoreKeys(facts: Facts, x: string, f: Fact)
    requires x !in facts
    ensures var more := facts[x := f];
            && ParticipantKeys(more) == ParticipantKeys(facts)
                 + {ByParticipant(f.payer, f.booked, f.currencyCode), ByParticipant(f.payee, f.booked, f.currencyCode)}
            && CurrencyKeys(more) == CurrencyKeys(facts) + {ByCurrency(f.currencyCode)}
            && StateKeys(more) == StateKeys(facts) + {ByState(f.booked, f.currencyCode)}
  {
    var more := facts[x := f];
    assert more[x] == f;
    assert forall y :: y in facts ==> y in more && more[y] == facts[y];
    assert forall y :: y in more ==> y == x || (y in facts && more[y] == facts[y]);
  }

  function Extra(f: Fact): int
  {
    if f.payer == f.payee then f.amount else 0
  }

  /** The two turns of the loop on one table, over integers. */
  function PlusBoth(totals: map<Key, Sides>, k1: Key, k2: Key, f: Fact): map<Key, Sides>
  {
    Plus(Plus(totals, k1, f.amount, Extra(f)), k2, Extra(f), f.amount)
  }

  lemma PlusBothExact(facts: Facts, keys: set<Key>, x: string, f: Fact, k1: Key, k2: Key, after: set<Key>)
    requires x !in facts && after == keys + {k1, k2}
    requires At(TotalsOf(facts, keys), k1) == SidesOf(facts, k1)
    requires At(TotalsOf(facts, keys), k2) == SidesOf(facts, k2)
    requires forall k :: k in after ==>
            (DebitTouches(k, f) <==> k == k1 || (k == k2 && k1.ByCurrency?) || (k == k2 && k1.ByState?))
    requires forall k :: k in after ==>
            (CreditTouches(k, f) <==> k == k2 || (k == k1 && k1.ByCurrency?) || (k == k1 && k1.ByState?))
    requires k1 == k2 <==> !k1.ByParticipant? || f.payer == f.payee
    ensures PlusBoth(TotalsOf(facts, keys), k1, k2, f) == TotalsOf(facts[x := f], after)
  {
    hide SidesOf, DebitTouches, CreditTouches;
    var more, totals := facts[x := f], TotalsOf(facts, keys);
    var sum := PlusBoth(totals, k1, k2, f);
    forall k | k in after ensures k in sum && sum[k] == SidesOf(more, k) {
      OneMore(facts, x, f, k);
    }
    assert sum.Keys == after;
  }

  lemma ParticipantsExact(facts: Facts, x: string, f: Fact)
    requires x !in facts
    ensures PlusBoth(TotalsOf(facts, ParticipantKeys(facts)), ByParticipant(f.payer, f.booked, f.currencyCode),
                     ByParticipant(f.payee, f.booked, f.currencyCode), f)
            == TotalsOf(facts[x := f], ParticipantKeys(facts[x := f]))
  {
    var k1, k2 := ByParticipant(f.payer, f.booked, f.currencyCode), ByParticipant(f.payee, f.booked, f.currencyCode);
    hide SidesOf, TotalsOf, At, ParticipantKeys, Plus, PlusBoth;
    MoreKeys(facts, x, f);
    AtKeys(facts, k1);
    AtKeys(facts, k2);
    OnlyParticipants(facts[x := f]);
    PlusBothExact(facts, ParticipantKeys(facts), x, f, k1, k2, ParticipantKeys(facts[x := f]));
  }

  lemma OnlyParticipants(facts: Facts)
    ensures forall k :: k in ParticipantKeys(facts) ==> k.ByParticipant?
    ensures forall k :: k in CurrencyKeys(facts) ==> k.ByCurrency?
    ensures forall k :: k in StateKeys(facts) ==> k.ByState?
  {
  }

  lemma CurrenciesExact(facts: Facts, x: string, f: Fact)
    requires x !in facts
    ensures PlusBoth(TotalsOf(facts, CurrencyKeys(facts)), ByCurrency(f.currencyCode), ByCurrency(f.currencyCode), f)
            == TotalsOf(facts[x := f], CurrencyKeys(facts[x := f]))
  {
    var k1 := ByCurrency(f.currencyCode);
    hide SidesOf, TotalsOf, At, CurrencyKeys, Plus, PlusBoth;
    MoreKeys(facts, x, f);
    AtKeys(facts, k1);
    OnlyParticipants(facts[x := f]);
    assert CurrencyKeys(facts[x := f]) == CurrencyKeys(facts) + {k1, k1};
    PlusBothExact(facts, CurrencyKeys(facts), x, f, k1, k1, CurrencyKeys(facts[x := f]));
  }

  lemma StatesExact(facts: Facts, x: string, f: Fact)
    requires x !in facts
    ensures var key := ByState(f.booked, f.currencyCode);
            PlusBoth(TotalsOf(facts, StateKeys(facts)), key, key, f)
            == TotalsOf(facts[x := f], StateKeys(facts[x := f]))
  {
    var k1 := ByState(f.booked, f.currencyCode);
    hide SidesOf, TotalsOf, At, StateKeys, Plus, PlusBoth;
    MoreKeys(facts, x, f);
    AtKeys(facts, k1);
    OnlyParticipants(facts[x := f]);
    assert StateKeys(facts[x := f]) == StateKeys(facts) + {k1, k1};
    PlusBothExact(facts, StateKeys(facts), x, f, k1, k1, StateKeys(facts[x := f]));
  }

  // ----- the strings follow the integers

  datatype Trio = Trio(participants: map<Key, Sides>, currencies: map<Key, Sides>, states: map<Key, Sides>)

  ghost predicate TrioShown(tb: Tables, t: Trio, currencies: Currencies)
  {
    && RowsShow(tb.byParticipant, t.participants, currencies)
    && RowsShow(tb.byCurrency, t.currencies, currencies)
    && RowsShow(tb.byStateAndCurrency, t.states, currencies)
  }

  predicate Fits(totals: map<Key, Sides>, k: Key, decimals: nat)
  {
    k in totals ==> InBound(totals[k], decimals)
  }

  function TrioPlus(t: Trio, p: string, code: string, st: BatchState, debit: int, credit: int): Trio
  {
    Trio(Plus(t.participants, ByParticipant(p, st, code), debit, credit),
         Plus(t.currencies, ByCurrency(code), debit, credit),
         Plus(t.states, ByState(st, code), debit, credit))
  }

  predicate TrioFits(t: Trio, p: string, code: string, st: BatchState, decimals: nat)
  {
    && Fits(t.participants, ByParticipant(p, st, code), decimals)
    && Fits(t.currencies, ByCurrency(code), decimals)
    && Fits(t.states, ByState(st, code), decimals)
  }

  /** One turn of the loop fails exactly when one of the three old balances is out of bounds. */
  lemma AddSidesShows(tb: Tables, t: Trio, p: string, debit: int, credit: int, code: string, st: BatchState,
      currencies: Currencies)
    requires TrioShown(tb, t, currencies)
    requires Balance(debit, Decimals(currencies, code)) && Balance(credit, Decimals(currencies, code))
    ensures var d := Decimals(currencies, code);
            var r := AddSides(tb, p, debit, credit, code, d, st);
            && (r.Some? <==> TrioFits(t, p, code, st, d))
            && (r.Some? ==> TrioShown(r.value, TrioPlus(t, p, code, st, debit, credit), currencies))
  {
    hide AddToRows, RowsShow, Plus, InBound, Balance, Decimals;
    AddToRowsShows(tb.byParticipant, t.participants, ByParticipant(p, st, code), debit, credit, currencies);
    AddToRowsShows(tb.byCurrency, t.currencies, ByCurrency(code), debit, credit, currencies);
    AddToRowsShows(tb.byStateAndCurrency, t.states, ByState(st, code), debit, credit, currencies);
  }

  ghost function TrioOf(facts: Facts): Trio
  {
    Trio(TotalsOf(facts, ParticipantKeys(facts)), TotalsOf(facts, CurrencyKeys(facts)),
         TotalsOf(facts, StateKeys(facts)))
  }

  ghost function CurrencyTotal(facts: Facts, code: string): int
  {
    SidesOf(facts, ByCurrency(code)).debit
  }

  /** The loop over payer and payee is one more fact in every table. */
  lemma BothTurns(facts: Facts, x: string, f: Fact)
    requires x !in facts
    ensures TrioPlus(TrioPlus(TrioOf(facts), f.payer, f.currencyCode, f.booked, f.amount, Extra(f)),
                     f.payee, f.currencyCode, f.booked, Extra(f), f.amount) == TrioOf(facts[x := f])
  {
    hide TotalsOf, Plus, ParticipantKeys, CurrencyKeys, StateKeys, Extra;
    ParticipantsExact(facts, x, f);
    CurrenciesExact(facts, x, f);
    StatesExact(facts, x, f);
  }

  lemma CountedPositive(facts: Facts, currencies: Currencies)
    requires GoodFacts(facts, currencies)
    ensures forall x :: x in facts ==> 0 < facts[x].amount <= Counted(facts[x])
  {
    forall x | x in facts ensures 0 < facts[x].amount {
      assert GoodFact(facts[x], currencies);
    }
  }

  /** No row exceeds the row of its currency, whose two sides are equal. */
  lemma CurrencyDominates(facts: Facts, k: Key, currencies: Currencies)
    requires GoodFacts(facts, currencies)
    ensures 0 <= SidesOf(facts, k).debit <= CurrencyTotal(facts, k.currencyCode)
    ensures 0 <= SidesOf(facts, k).credit <= CurrencyTotal(facts, k.currencyCode)
    ensures SidesOf(facts, ByCurrency(k.currencyCode)).credit == CurrencyTotal(facts, k.currencyCode)
  {
    hide GoodFact, Counted;
    CountedPositive(facts, currencies);
    var c := ByCurrency(k.currencyCode);
    assert Debits(facts, c) == Credits(facts, c);
    MapSumNonNegative(Debits(facts, k));
    MapSumNonNegative(Credits(facts, k));
    MapSumSubset(Debits(facts, k), Debits(facts, c));
    MapSumSubset(Credits(facts, k), Credits(facts, c));
  }

  lemma DominatesAt(facts: Facts, p: string, code: string, st: BatchState, currencies: Currencies)
    requires GoodFacts(facts, currencies)
    ensures var t, total := TrioOf(facts), CurrencyTotal(facts, code);
            && AtMost(At(t.participants, ByParticipant(p, st, code)), total)
            && At(t.currencies, ByCurrency(code)) == Sides(total, total)
            && AtMost(At(t.states, ByState(st, code)), total)
  {
    hide SidesOf, GoodFacts, TotalsOf, At, CurrencyTotal, ParticipantKeys, CurrencyKeys, StateKeys;
    AtKeys(facts, ByParticipant(p, st, code));
    AtKeys(facts, ByCurrency(code));
    AtKeys(facts, ByState(st, code));
    CurrencyDominates(facts, ByParticipant(p, st, code), currencies);
    CurrencyDominates(facts, ByState(st, code), currencies);
    assert SidesOf(facts, ByCurrency(code)).debit == CurrencyTotal(facts, code) by { SameTotal(facts, code); }
  }

  lemma SameTotal(facts: Facts, code: string)
    ensures SidesOf(facts, ByCurrency(code)).debit == CurrencyTotal(facts, code)
  {
  }

  predicate AtMost(s: Sides, total: int)
  {
    0 <= s.debit <= total && 0 <= s.credit <= total
  }

  /** Both turns go through exactly when the currency total with the new amount stays in bounds. */
  lemma TurnsFit(t: Trio, f: Fact, total: int, decimals: nat)
    requires 0 < f.amount < Bound(decimals) && 0 <= total
    requires forall p :: AtMost(At(t.participants, ByParticipant(p, f.booked, f.currencyCode)), total)
    requires At(t.currencies, ByCurrency(f.currencyCode)) == Sides(total, total)
    requires AtMost(At(t.states, ByState(f.booked, f.currencyCode)), total)
    ensures total + f.amount < Bound(decimals) <==>
              && TrioFits(t, f.payer, f.currencyCode, f.booked, decimals)
              && TrioFits(TrioPlus(t, f.payer, f.currencyCode, f.booked, f.amount, Extra(f)),
                          f.payee, f.currencyCode, f.booked, decimals)
  {
    hide Bound;
    assert AtMost(At(t.participants, ByParticipant(f.payer, f.booked, f.currencyCode)), total);
    assert AtMost(At(t.participants, ByParticipant(f.payee, f.booked, f.currencyCode)), total);
  }

  lemma ExtraBalance(f: Fact, currencies: Currencies)
    requires GoodFact(f, currencies)
    ensures Balance(f.amount, Decimals(currencies, f.currencyCode))
            && Balance(Extra(f), Decimals(currencies, f.currencyCode))
  {
    ZeroBalance(Decimals(currencies, f.currencyCode));
  }

  /** `addBalance` on the strings adds one fact to all three tables; it throws exactly when the total of the
      currency, with the new amount, no longer has at most 18 integer digits. */
  lemma AddAmountExact(tb: Tables, facts: Facts, x: string, f: Fact, currencies: Currencies)
    requires TablesShow(tb, facts, currencies) && GoodFacts(facts, currencies)
    requires x !in facts && GoodFact(f, currencies)
    ensures var d := Decimals(currencies, f.currencyCode);
            var r := AddAmount(tb, f.payer, f.payee, f.amount, f.currencyCode, d, f.booked);
            && (r.Some? <==> CurrencyTotal(facts, f.currencyCode) + f.amount < Bound(d))
            && (r.Some? ==> TablesShow(r.value, facts[x := f], currencies))
  {
    var d, t := Decimals(currencies, f.currencyCode), TrioOf(facts);
    ExtraBalance(f, currencies);
    AddSidesShows(tb, t, f.payer, f.amount, Extra(f), f.currencyCode, f.booked, currencies);
    AmountTurns(facts, f, currencies);
    BothTurns(facts, x, f);
    hide AddSides, RowsShow, TrioFits, TrioPlus, TotalsOf, GoodFacts, CurrencyTotal, Bound, Balance, Decimals, GoodFact;
    var r1 := AddSides(tb, f.payer, f.amount, Extra(f), f.currencyCode, d, f.booked);
    if r1.Some? {
      var t1 := TrioPlus(t, f.payer, f.currencyCode, f.booked, f.amount, Extra(f));
      AddSidesShows(r1.value, t1, f.payee, Extra(f), f.amount, f.currencyCode, f.booked, currencies);
    }
  }

  lemma AmountTurns(facts: Facts, f: Fact, currencies: Currencies)
    requires GoodFacts(facts, currencies) && GoodFact(f, currencies)
    ensures var d, t := Decimals(currencies, f.currencyCode), TrioOf(facts);
            CurrencyTotal(facts, f.currencyCode) + f.amount < Bound(d) <==>
              && TrioFits(t, f.payer, f.currencyCode, f.booked, d)
              && TrioFits(TrioPlus(t, f.payer, f.currencyCode, f.booked, f.amount, Extra(f)),
                          f.payee, f.currencyCode, f.booked, d)
  {
    var total := CurrencyTotal(facts, f.currencyCode);
    CurrencyDominates(facts, ByCurrency(f.currencyCode), currencies);
    hide SidesOf, GoodFacts, TotalsOf, At, CurrencyTotal, TrioFits, TrioPlus, Bound, Decimals;
    forall p ensures AtMost(At(TrioOf(facts).participants, ByParticipant(p, f.booked, f.currencyCode)), total) {
      DominatesAt(facts, p, f.currencyCode, f.booked, currencies);
    }
    DominatesAt(facts, f.payer, f.currencyCode, f.booked, currencies);
    TurnsFit(TrioOf(facts), f, total, Decimals(currencies, f.currencyCode));
  }
}
