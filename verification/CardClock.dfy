/** ccu.c: the rate of PLL_PERI(1X), and the divider mmc0clock picks for a card. */
module CardClock {
  type U32 = w: int | 0 <= w < 0x1_0000_0000

  const HOSCFREQ: nat := 24_000_000
  const GATE: nat := 0x8000_0000

  function Shift(p: nat): (n: nat)
    requires p <= 3
    ensures n > 0
  {
    if p == 0 then 1 else if p == 1 then 2 else if p == 2 then 4 else 8
  }

  // ----- peri1xfreq -----

  /** The three fields of the PLL_PERI register, each plus one. */
  function N(v: U32): nat { (v / 0x100) % 0x100 + 1 }

  function M(v: U32): nat { (v / 2) % 2 + 1 }

  function P(v: U32): nat { (v / 0x1_0000) % 8 + 1 }

  function Peri1x(v: U32): nat { HOSCFREQ * N(v) / M(v) / P(v) / 2 }

  lemma DivDiv(a: nat, m: nat, p: nat)
    requires m > 0 && p > 0
    ensures m * p > 0 && a / m / p == a / (m * p)
  {
    var q1 := a / m;
    var q := q1 / p;
    Products(m, p);
    Quotient(a, m);
    Quotient(q1, p);
    Below(a, m, p, q1, q);
    Above(a, m, p, q1, q);
    QuotientIs(a, m * p, q);
  }

  lemma Below(a: nat, m: nat, p: nat, q1: nat, q: nat)
    requires m * q1 <= a && p * q <= q1
    ensures (m * p) * q <= a
  {
    Scale(m, p * q, q1);
    Regroup(m, p, q);
  }

  lemma Above(a: nat, m: nat, p: nat, q1: nat, q: nat)
    requires a < m * (q1 + 1) && q1 + 1 <= p * (q + 1)
    ensures a < (m * p) * (q + 1)
  {
    Scale(m, q1 + 1, p * (q + 1));
    Regroup(m, p, q + 1);
  }

  lemma Products(m: nat, p: nat)
    requires m > 0 && p > 0
    ensures m * p >= 1
  {
  }

  lemma Quotient(a: nat, m: nat)
    requires m > 0
    ensures m * (a / m) <= a < m * (a / m + 1)
  {
  }

  lemma Scale(m: nat, a: nat, b: nat)
    requires a <= b
    ensures m * a <= m * b
  {
  }

  lemma Regroup(m: nat, p: nat, q: nat)
    ensures m * (p * q) == (m * p) * q
  {
  }

  lemma QuotientIs(a: nat, d: nat, q: nat)
    requires d > 0 && d * q <= a < d * (q + 1)
    ensures a / d == q
  {
    var r := a / d;
    Quotient(a, d);
    if r < q { Scale(d, r + 1, q); }
    if q < r { Scale(d, q + 1, r); }
  }

  /** The chained divisions are one floor division, and the rate fits a 32-bit ulong. */
  lemma Peri1xExact(v: U32)
    ensures 2 * (M(v) * P(v)) > 0
    ensures Peri1x(v) == HOSCFREQ * N(v) / (2 * (M(v) * P(v))) && Peri1x(v) < 0x1_0000_0000
  {
    var a := HOSCFREQ * N(v);
    DivDiv(a, M(v), P(v));
    DivDiv(a, M(v) * P(v), 2);
    assert M(v) * P(v) * 2 == 2 * (M(v) * P(v));
    assert a <= 0x1_6E36_0000;
    Smaller(a, 2 * (M(v) * P(v)));
  }

  lemma Smaller(a: nat, d: nat)
    requires d >= 2
    ensures 2 * (a / d) <= a
  {
    var q := a / d;
    Quotient(a, d);
    assert d * q <= a;
    ScaleLeft(2, d, q);
    assert 2 * q <= d * q;
  }

  lemma ScaleLeft(a: nat, b: nat, m: nat)
    requires a <= b
    ensures a * m <= b * m
  {
  }

  // ----- the divider -----

  /** The quotient mmc0clock starts from, before its floor of 1. */
  function Ratio(freq: nat, hz: nat): nat
    requires hz > 0
  {
    freq / 2 / hz
  }

  function Div(freq: nat, hz: nat): nat
    requires hz > 0
  {
    if Ratio(freq, hz) < 1 then 1 else Ratio(freq, hz)
  }

  /** The least shift that brings div to 16 or less, or 3. */
  function Pre(div: nat): (p: nat)
    ensures p <= 3 && (p < 3 ==> div <= 16 * Shift(p)) && forall q :: 0 <= q < p ==> div > 16 * Shift(q)
  {
    if div <= 16 then 0 else if div <= 32 then 1 else if div <= 64 then 2 else 3
  }

  /** Round up, then clamp to what the register holds. */
  function Post(div: nat): nat {
    var n := Shift(Pre(div));
    var m := (div + n - 1) / n;
    if m > 16 then 16 else if m < 1 then 1 else m
  }

  /** What the card clock is divided by, apart from the fixed 2. */
  function Total(div: nat): nat { Post(div) * Shift(Pre(div)) }

  lemma TotalBounds(div: nat)
    requires div >= 1
    ensures 1 <= Post(div) <= 16
    ensures div <= 128 ==> div <= Total(div) < div + Shift(Pre(div))
    ensures div <= 128 ==> (Total(div) == div <==> div % Shift(Pre(div)) == 0)
    ensures div > 128 ==> Total(div) == 128
  {
  }

  /** The card runs at freq / (2 * Total): no faster than asked means at most hz. */
  predicate NoFaster(freq: nat, hz: nat, total: nat) { freq <= 2 * hz * total }

  /** Floor of the halved rate over hz is one division. */
  lemma RatioIs(freq: nat, hz: nat)
    requires hz > 0
    ensures var q := Ratio(freq, hz); 2 * hz * q <= freq < 2 * hz * (q + 1)
    ensures freq % (2 * hz) == 0 <==> freq == 2 * hz * Ratio(freq, hz)
  {
    DivDiv(freq, 2, hz);
    Quotient(freq, 2 * hz);
    assert freq == 2 * hz * (freq / (2 * hz)) + freq % (2 * hz);
  }

  /** The card clock is below hz * (div + 1) / div exactly when div is at most 128, what the register can divide by. */
  lemma CardBound(freq: nat, hz: nat)
    requires hz > 0
    ensures var div := Div(freq, hz); freq * div < 2 * hz * (div + 1) * Total(div) <==> div <= 128
  {
    var div, total := Div(freq, hz), Total(Div(freq, hz));
    RatioIs(freq, hz);
    TotalBounds(div);
    var c := 2 * hz;
    if div <= 128 {
      assert freq < c * (div + 1) by {
        if Ratio(freq, hz) < 1 { assert c * 1 <= c * 2; }
      }
      hide *;
      Strict(freq, c * (div + 1), div);
      Scale(c * (div + 1), div, total);
    } else {
      hide *;
      ScaleLeft(c * div, freq, div);
      Regroup(c, div, div);
      TooWide(div);
      Scale(c, (div + 1) * 128, div * div);
      Regroup(c, div + 1, 128);
    }
  }

  lemma TooWide(div: nat)
    requires div > 128
    ensures (div + 1) * 128 <= div * div
  {
    ScaleLeft(129, div, div);
  }

  /** Such a rate: 1 Hz asks for a divider of 12 million and gets 128, so the card runs at 93,750 Hz. */
  lemma BoundFails()
    ensures var div := Div(HOSCFREQ, 1);
      div == 12_000_000 && Total(div) == 128 && HOSCFREQ * div >= 2 * 1 * (div + 1) * Total(div)
    ensures HOSCFREQ / (2 * Total(Div(HOSCFREQ, 1))) == 93_750
  {
    TotalBounds(Div(HOSCFREQ, 1));
  }

  lemma Strict(a: nat, b: nat, m: nat)
    requires a < b && m > 0
    ensures a * m < b * m
  {
  }

  /**
   The card is never clocked faster than asked exactly when the ratio is below 1, or it fits the divider and either
   hz divides the parent rate evenly or the divider really rounded up.
   */
  lemma NoFasterIff(freq: nat, hz: nat)
    requires hz > 0
    ensures var r := Ratio(freq, hz);
      NoFaster(freq, hz, Total(Div(freq, hz))) <==>
        r == 0 || (r <= 128 && (freq % (2 * hz) == 0 || r % Shift(Pre(r)) != 0))
  {
    var r, div := Ratio(freq, hz), Div(freq, hz);
    var total, c := Total(div), 2 * hz;
    RatioIs(freq, hz);
    TotalBounds(div);
    if r == 0 {
      Scale(c, 1, total);
    } else if r > 128 {
      Scale(c, 129, r);
    } else if total == r {
    } else {
      Scale(c, r + 1, total);
    }
  }

  /** The header comment's claim fails: 5 MHz from the oscillator gives 6 MHz. */
  lemma FasterThanAsked()
    ensures !NoFaster(HOSCFREQ, 5_000_000, Total(Div(HOSCFREQ, 5_000_000)))
    ensures HOSCFREQ / (2 * Total(Div(HOSCFREQ, 5_000_000))) == 6_000_000
  {
    assert Ratio(HOSCFREQ, 5_000_000) == 2;
    assert Total(2) == 2;
  }

  // ----- the register -----

  /** src<<24 | p<<8 | m-1: the fields do not overlap. */
  function Pack(src: nat, p: nat, m: nat): U32
    requires src <= 7 && p <= 3 && 1 <= m <= 16
  {
    src * 0x100_0000 + p * 0x100 + (m - 1)
  }

  lemma DivOf(q: nat, d: nat, r: nat)
    requires r < d && (d == 4 || d == 8 || d == 16 || d == 0x100 || d == 0x100_0000)
    ensures (q * d + r) / d == q && (q * d + r) % d == r
  {
  }

  lemma PackDecodes(src: nat, p: nat, m: nat)
    requires src <= 7 && p <= 3 && 1 <= m <= 16
    ensures var v := Pack(src, p, m);
      && (v / 0x100_0000) % 8 == src && (v / 0x100) % 4 == p && v % 16 + 1 == m && v < GATE
      && ((v + GATE) / 0x100_0000) % 8 == src && ((v + GATE) / 0x100) % 4 == p && (v + GATE) % 16 + 1 == m
  {
    FieldsOf(src, p, m);
    FieldsOf(src + 128, p, m);
    DivOf(0, 8, src);
    DivOf(16, 8, src);
  }

  lemma FieldsOf(src: nat, p: nat, m: nat)
    requires p <= 3 && 1 <= m <= 16
    ensures var v := src * 0x100_0000 + p * 0x100 + (m - 1);
      v / 0x100_0000 == src && (v / 0x100) % 4 == p && v % 16 == m - 1
  {
    DivOf(src, 0x100_0000, p * 0x100 + (m - 1));
    DivOf(src * 0x1_0000 + p, 0x100, m - 1);
    DivOf(src * 0x4000, 4, p);
    DivOf(src * 0x10_0000 + p * 0x10, 16, m - 1);
  }

  // ----- what the register asks of the hardware -----

  /** The rate of clock source src, from the PLL_PERI register: the 24 MHz oscillator, or PLL_PERI(1X). */
  function SourceRate(src: nat, v: U32): nat {
    if src == 0 then 24_000_000
    else 24_000_000 * (v / 0x100 % 0x100 + 1) / (2 * ((v / 2 % 2 + 1) * (v / 0x1_0000 % 8 + 1)))
  }

  /** Fields 26:24, 9:8 and 3:0 of the card's clock register: source, shift and divider. */
  function SourceOf(w: U32): nat { w / 0x100_0000 % 8 }

  function ShiftOf(w: U32): nat { w / 0x100 % 4 }

  function DividerOf(w: U32): nat { w % 16 + 1 }

  /** What the source's rate, halved, is divided by. */
  function DividesBy(w: U32): nat { DividerOf(w) * [1, 2, 4, 8][ShiftOf(w)] }

  /**
   The register divides its source for hz.  q is the quotient wanted: the source up to 12 MHz is the oscillator; the
   shift is the least that leaves at most 16, the divider q rounded up, as far as the fields go.  So the card runs below
   hz * (q + 1) / q exactly when q is at most 128, and no faster than hz exactly when the quotient is 0, or at most 128
   and even or really rounded up.
   */
  ghost predicate Clocks(hz: nat, v: U32, w: U32)
    requires hz > 0
  {
    var src, p, total := SourceOf(w), ShiftOf(w), DividesBy(w);
    var freq := SourceRate(src, v);
    var r := freq / (2 * hz);
    var q := if r == 0 then 1 else r;
    && w / 0x8000_0000 == 1 && src == (if hz <= 12_000_000 then 0 else 1)
    && p == (if q <= 16 then 0 else if q <= 32 then 1 else if q <= 64 then 2 else 3)
    && (q <= 128 ==> q <= total < q + [1, 2, 4, 8][p]) && (q > 128 ==> total == 128)
    && (freq * q < 2 * hz * (q + 1) * total <==> q <= 128)
    && (freq <= 2 * hz * total <==>
          r == 0 || (r <= 128 && (freq % (2 * hz) == 0 || r % [1, 2, 4, 8][p] != 0)))
  }

  lemma PackClocks(hz: nat, v: U32, freq: nat, src: nat, w: U32)
    requires hz > 0 && src == (if hz <= 12_000_000 then 0 else 1)
    requires freq == if src == 0 then 24_000_000 else Peri1x(v)
    requires var div := Div(freq, hz);
      1 <= Post(div) <= 16 && w == Pack(src, Pre(div), Post(div)) + GATE
    ensures Clocks(hz, v, w)
  {
    hide *;
    var div := Div(freq, hz);
    WordFields(src, Pre(div), Post(div), w);
    RateIs(src, v, freq);
    RatioIs(freq, hz);
    CardBound(freq, hz);
    NoFasterIff(freq, hz);
    DivParts(freq, hz);
    TotalBounds(div);
    TotalIs(div);
    ShiftIs(Pre(div));
    ClocksIf(hz, v, w, freq, div);
  }

  lemma ClocksIf(hz: nat, v: U32, w: U32, freq: nat, div: nat)
    requires hz > 0 && freq == SourceRate(SourceOf(w), v) && SourceOf(w) == (if hz <= 12_000_000 then 0 else 1)
    requires w / 0x8000_0000 == 1 && ShiftOf(w) == Pre(div) && DividesBy(w) == Total(div)
    requires Pre(div) == (if div <= 16 then 0 else if div <= 32 then 1 else if div <= 64 then 2 else 3)
    requires var r := freq / (2 * hz); r == Ratio(freq, hz) && div == Div(freq, hz) == if r == 0 then 1 else r
    requires div <= 128 ==> div <= Total(div) < div + Shift(Pre(div))
    requires div > 128 ==> Total(div) == 128
    requires freq * div < 2 * hz * (div + 1) * Total(div) <==> div <= 128
    requires var r := Ratio(freq, hz);
      freq <= 2 * hz * Total(div) <==> r == 0 || (r <= 128 && (freq % (2 * hz) == 0 || r % Shift(Pre(r)) != 0))
    requires Shift(Pre(div)) == [1, 2, 4, 8][Pre(div)]
    ensures Clocks(hz, v, w)
  {
    hide SourceRate, SourceOf, ShiftOf, DividesBy, Ratio, Div, Total, Pre, Shift;
  }

  lemma DivParts(freq: nat, hz: nat)
    requires hz > 0
    ensures var r, div := freq / (2 * hz), Div(freq, hz);
      && r == Ratio(freq, hz) && div == (if r == 0 then 1 else r)
      && Pre(div) == (if div <= 16 then 0 else if div <= 32 then 1 else if div <= 64 then 2 else 3)
    ensures NoFaster(freq, hz, Total(Div(freq, hz))) <==> freq <= 2 * hz * Total(Div(freq, hz))
  {
    DivDiv(freq, 2, hz);
    hide Total;
  }

  lemma TotalIs(div: nat)
    ensures Total(div) == Post(div) * Shift(Pre(div))
  {
  }

  lemma WordFields(src: nat, p: nat, m: nat, w: U32)
    requires src <= 7 && p <= 3 && 1 <= m <= 16 && w == Pack(src, p, m) + GATE
    ensures SourceOf(w) == src && ShiftOf(w) == p && w / 0x8000_0000 == 1 && DividesBy(w) == m * Shift(p)
  {
    PackDecodes(src, p, m);
    PackGate(src, p, m);
    ShiftIs(p);
    hide Pack;
  }

  lemma RateIs(src: nat, v: U32, freq: nat)
    requires src <= 1 && freq == if src == 0 then 24_000_000 else Peri1x(v)
    ensures freq == SourceRate(src, v)
  {
    Peri1xExact(v);
  }

  lemma ShiftIs(p: nat)
    requires p <= 3
    ensures Shift(p) == [1, 2, 4, 8][p]
  {
  }

  lemma PackGate(src: nat, p: nat, m: nat)
    requires src <= 7 && p <= 3 && 1 <= m <= 16
    ensures (Pack(src, p, m) + GATE) / 0x8000_0000 == 1
  {
  }

  /** The two registers mmc0clock reads and writes. */
  class Ccu {
    var pllPeriCtl: U32
    var mmc0Clk: U32

    method Peri1xfreq() returns (freq: U32)
      ensures freq == Peri1x(pllPeriCtl) == SourceRate(1, pllPeriCtl)
    {
      Peri1xExact(pllPeriCtl);
      var v := pllPeriCtl;
      var n := (v / 0x100) % 0x100 + 1;
      var m := (v / 2) % 2 + 1;
      var p := (v / 0x1_0000) % 8 + 1;
      freq := HOSCFREQ * n / m / p / 2;
    }

    /** The parent of a request: the oscillator up to 12 MHz, PLL_PERI(1X) above. */
    function Parent(hz: nat): nat
      reads this
    {
      if hz <= HOSCFREQ / 2 then HOSCFREQ else Peri1x(pllPeriCtl)
    }

    /** The loop that finds the shift. */
    method Prescale(div: nat) returns (p: nat)
      ensures p == Pre(div)
    {
      p := 0;
      while p < 3 && div > 16 * Shift(p)
        invariant 0 <= p <= 3 && forall q :: 0 <= q < p ==> div > 16 * Shift(q)
      {
        p := p + 1;
      }
    }

    /** The card divider for hz, gate on, written first with the gate off; nothing for a rate that is not positive. */
    method Mmc0clock(hz: int) returns (ghost writes: seq<U32>)
      modifies this`mmc0Clk
      ensures hz <= 0 ==> mmc0Clk == old(mmc0Clk) && writes == []
      ensures hz > 0 ==>
        var div := Div(Parent(hz), hz);
        && 1 <= Post(div) <= 16
        && mmc0Clk == Pack(if hz <= HOSCFREQ / 2 then 0 else 1, Pre(div), Post(div)) + GATE
      ensures hz > 0 ==> Clocks(hz, pllPeriCtl, mmc0Clk)
      ensures hz > 0 ==> mmc0Clk >= 0x8000_0000 && writes == [mmc0Clk - 0x8000_0000, mmc0Clk]
    {
      hide Clocks, Peri1x, Pre, Pack;
      writes := [];
      if hz <= 0 {
        return;
      }
      var src, freq := 0, HOSCFREQ;
      if hz > HOSCFREQ / 2 {
        src := 1;
        freq := Peri1xfreq();
      }
      var div := freq / 2 / hz;
      if div < 1 {
        div := 1;
      }
      var p := Prescale(div);
      var m := (div + Shift(p) - 1) / Shift(p);
      if m > 16 {
        m := 16;
      }
      if m < 1 {
        m := 1;
      }
      TotalBounds(div);
      PackDecodes(src, p, m);
      var v := Pack(src, p, m);
      mmc0Clk := v;
      writes := writes + [mmc0Clk];
      mmc0Clk := v + GATE;
      writes := writes + [mmc0Clk];
      PackClocks(hz, pllPeriCtl, freq, src, mmc0Clk);
    }
  }
}
