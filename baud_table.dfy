/**
 The Super Serial Card's baud-rate table: for each of the fifteen rates the
 calculator offers, the positions of switches 1-4 of the first DIP bank (SW1).
 The module gives the exact-match lookup the calculator performs, with its
 fallback, and shows that the table is a 4-bit binary code, so that the four
 switches always decode back to the one rate that produced them.
 */
module BaudTable {

  datatype Option<+T> = None | Some(value: T)

  /** One row of the table: the rate as the menu spells it, and SW1-1..SW1-4 (true = ON). */
  datatype BaudRow = BaudRow(value: string, sw1: seq<bool>)

  const BaudRates: seq<BaudRow> := [
    BaudRow("50",    [true,  true,  true,  false]),
    BaudRow("75",    [true,  true,  false, true ]),
    BaudRow("110",   [true,  true,  false, false]),
    BaudRow("135",   [true,  false, true,  true ]),
    BaudRow("150",   [true,  false, true,  false]),
    BaudRow("300",   [true,  false, false, true ]),
    BaudRow("600",   [true,  false, false, false]),
    BaudRow("1200",  [false, true,  true,  true ]),
    BaudRow("1800",  [false, true,  true,  false]),
    BaudRow("2400",  [false, true,  false, true ]),
    BaudRow("3600",  [false, true,  false, false]),
    BaudRow("4800",  [false, false, true,  true ]),
    BaudRow("7200",  [false, false, true,  false]),
    BaudRow("9600",  [false, false, false, true ]),
    BaudRow("19200", [false, false, false, false])
  ]

  /** The pattern used when a rate is not in the table. */
  const FallbackPattern: seq<bool> := [false, false, false, true]

  /** The one pattern of four switches that no rate uses. */
  const AllOn: seq<bool> := [true, true, true, true]

  /** True when some row of the table carries exactly this rate string. */
  predicate IsListed(rate: string)
  {
    exists k :: 0 <= k < |BaudRates| && BaudRates[k].value == rate
  }

  /** The first row whose rate is exactly `key`, or None: a search from the front of the list. */
  function Find(rows: seq<BaudRow>, key: string): (r: Option<BaudRow>)
    ensures r.None? <==> forall i :: 0 <= i < |rows| ==> rows[i].value != key
    ensures r.Some? ==> r.value.value == key
    ensures r.Some? ==>
      exists i :: 0 <= i < |rows| && rows[i] == r.value && forall j :: 0 <= j < i ==> rows[j].value != key
  {
    if rows == [] then None
    else if rows[0].value == key then Some(rows[0])
    else
      var r := Find(rows[1..], key);
      assert forall i :: 1 <= i < |rows| ==> rows[i] == rows[1..][i - 1];
      r
  }

  /** Big-endian value of a sequence of switches: the first switch is the most significant bit. */
  function BitsValue(bits: seq<bool>): nat
  {
    if bits == [] then 0
    else 2 * BitsValue(bits[..|bits| - 1]) + (if bits[|bits| - 1] then 1 else 0)
  }

  function Pow2(n: nat): nat
  {
    if n == 0 then 1 else 2 * Pow2(n - 1)
  }

  /** n switches encode a number below 2^n. */
  lemma {:induction false} BitsValueBound(bits: seq<bool>)
    ensures BitsValue(bits) < Pow2(|bits|)
  {
    if bits != [] {
      BitsValueBound(bits[..|bits| - 1]);
    }
  }

  /** Two banks of switches of the same width that encode the same number are the same bank. */
  lemma {:induction false} BitsValueInjective(a: seq<bool>, b: seq<bool>)
    requires |a| == |b|
    requires BitsValue(a) == BitsValue(b)
    ensures a == b
  {
    if a != [] {
      var n := |a| - 1;
      assert a[n] == b[n];
      BitsValueInjective(a[..n], b[..n]);
      assert a == a[..n] + [a[n]];
      assert b == b[..n] + [b[n]];
    }
  }

  function Bit(b: bool): nat { if b then 1 else 0 }

  /** The value of four switches, written out by place. */
  lemma BitsValueOfFour(s: seq<bool>)
    requires |s| == 4
    ensures BitsValue(s) == 8 * Bit(s[0]) + 4 * Bit(s[1]) + 2 * Bit(s[2]) + Bit(s[3])
  {
    assert s[..1][..0] == [];
    assert BitsValue(s[..1]) == Bit(s[0]);
    assert s[..2][..1] == s[..1];
    assert BitsValue(s[..2]) == 2 * Bit(s[0]) + Bit(s[1]);
    assert s[..3][..2] == s[..2];
    assert BitsValue(s[..3]) == 4 * Bit(s[0]) + 2 * Bit(s[1]) + Bit(s[2]);
    assert s[..4][..3] == s[..3] && s[..4] == s;
  }

  /** Row k of the table holds the 4-bit binary code of 14 - k. */
  lemma BaudRowsEncode()
    ensures |BaudRates| == 15
    ensures forall k :: 0 <= k < |BaudRates| ==> |BaudRates[k].sw1| == 4 && BitsValue(BaudRates[k].sw1) == 14 - k
  {
    forall k | 0 <= k < |BaudRates|
      ensures |BaudRates[k].sw1| == 4 && BitsValue(BaudRates[k].sw1) == 14 - k
    {
      BitsValueOfFour(BaudRates[k].sw1);
    }
  }

  /** The fifteen rate strings are pairwise distinct. */
  lemma BaudValuesDistinct()
    ensures forall i, j :: 0 <= i < j < |BaudRates| ==> BaudRates[i].value != BaudRates[j].value
  {
  }

  /** The fifteen patterns are pairwise distinct, none is all ON, and the fallback is the 9600 row. */
  lemma BaudPatternsDistinct()
    ensures forall i, j :: 0 <= i < j < |BaudRates| ==> BaudRates[i].sw1 != BaudRates[j].sw1
    ensures forall k :: 0 <= k < |BaudRates| ==> BaudRates[k].sw1 != AllOn
    ensures BaudRates[13] == BaudRow("9600", FallbackPattern)
  {
  }

  /** SW1-1..SW1-4 for a rate: the row found by exact match, or the fallback pattern. */
  function BaudPattern(rate: string): (p: seq<bool>)
    ensures |p| == 4
    ensures forall k :: 0 <= k < |BaudRates| && BaudRates[k].value == rate ==> p == BaudRates[k].sw1
    ensures !IsListed(rate) ==> p == FallbackPattern
  {
    BaudRowsEncode();
    BaudValuesDistinct();
    match Find(BaudRates, rate)
    case Some(row) => row.sw1
    case None => FallbackPattern
  }

  /** The rate a pattern of SW1-1..SW1-4 selects, read as the binary code of the table: row 14 - value. */
  function DecodeBaud(p: seq<bool>): Option<string>
  {
    if |p| == 4 && BitsValue(p) < |BaudRates| then Some(BaudRates[|BaudRates| - 1 - BitsValue(p)].value)
    else None
  }

  /**
   Encoding then decoding gives back the rate, for every string: a listed rate
   decodes to itself and any other string to "9600".
   */
  lemma EncodeThenDecode(rate: string)
    ensures DecodeBaud(BaudPattern(rate)) == Some(if IsListed(rate) then rate else "9600")
  {
    BaudRowsEncode();
    BaudPatternsDistinct();
    if IsListed(rate) {
      var k :| 0 <= k < |BaudRates| && BaudRates[k].value == rate;
      assert BitsValue(BaudPattern(rate)) == 14 - k;
    } else {
      assert BaudPattern(rate) == BaudRates[13].sw1;
    }
  }

  /**
   Decoding then encoding gives back the pattern: every 4-switch pattern except
   all ON selects some listed rate, whose pattern is the one decoded; all ON
   and every pattern of another width select nothing.
   */
  lemma DecodeThenEncode(p: seq<bool>)
    ensures DecodeBaud(p).Some? <==> |p| == 4 && p != AllOn
    ensures DecodeBaud(p).Some? ==> IsListed(DecodeBaud(p).value) && BaudPattern(DecodeBaud(p).value) == p
  {
    BaudRowsEncode();
    BaudPatternsDistinct();
    if |p| == 4 {
      BitsValueBound(p);
      assert Pow2(4) == 16;
      BitsValueOfFour(AllOn);
      if p == AllOn {
      } else if BitsValue(p) == 15 {
        BitsValueInjective(p, AllOn);
        assert false;
      } else {
        var k := 14 - BitsValue(p);
        assert BitsValue(BaudRates[k].sw1) == BitsValue(p);
        BitsValueInjective(p, BaudRates[k].sw1);
        assert BaudPattern(BaudRates[k].value) == p;
      }
    }
  }
}
