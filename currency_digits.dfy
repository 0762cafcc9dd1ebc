/** The ISO 4217 minor-unit lookup behind the CurrencyDigits abstract operation
    (section 11.1.1 of ECMA-402, 2nd edition). */
module CurrencyDigitsTable {
  import opened Wrappers

  /** The currencies whose minor unit is not 2, in ascending order of their sort key. */
  const MinorUnits: seq<(string, nat)> := [
    ("BHD", 3), ("BIF", 0), ("BYR", 0), ("CLF", 4), ("CLP", 0), ("DJF", 0), ("GNF", 0),
    ("IQD", 3), ("ISK", 0), ("JOD", 3), ("JPY", 0), ("KMF", 0), ("KRW", 0), ("KWD", 3),
    ("LYD", 3), ("OMR", 3), ("PYG", 0), ("RWF", 0), ("TND", 3), ("UGX", 0), ("UYI", 0),
    ("VND", 0), ("VUV", 0), ("XAF", 0), ("XOF", 0), ("XPF", 0)
  ]

  predicate IsAsciiUpper(c: char) {
    'A' <= c <= 'Z'
  }

  /** Three upper-case ASCII letters: the shape of an accepted, normalised currency code. */
  predicate IsUpperCode(code: string) {
    |code| == 3 && forall i :: 0 <= i < 3 ==> IsAsciiUpper(code[i])
  }

  /** The binary-search key: the three characters packed as (c0 << 16) + (c1 << 8) + c2. */
  function SortKey(code: string): nat
    requires |code| == 3
  {
    (code[0] as nat) * 65536 + (code[1] as nat) * 256 + code[2] as nat
  }

  /** Two upper-case codes with the same key are the same code. */
  lemma SortKeyInjective(a: string, b: string)
    requires IsUpperCode(a) && IsUpperCode(b)
    requires SortKey(a) == SortKey(b)
    ensures a == b
  {
    assert a == [a[0], a[1], a[2]] && b == [b[0], b[1], b[2]];
  }

  predicate TableWellFormed(table: seq<(string, nat)>) {
    forall i :: 0 <= i < |table| ==> IsUpperCode(table[i].0)
  }

  /** Strictly ascending keys: what the binary search relies on. */
  predicate StrictlySorted(table: seq<(string, nat)>)
    requires TableWellFormed(table)
  {
    forall i, j :: 0 <= i < j < |table| ==> SortKey(table[i].0) < SortKey(table[j].0)
  }

  lemma {:induction false} AdjacentSortedIsSorted(table: seq<(string, nat)>)
    requires TableWellFormed(table)
    requires forall i :: 0 <= i < |table| - 1 ==> SortKey(table[i].0) < SortKey(table[i + 1].0)
    ensures StrictlySorted(table)
  {
    if |table| > 1 {
      AdjacentSortedIsSorted(table[1..]);
      forall i, j | 0 <= i < j < |table|
        ensures SortKey(table[i].0) < SortKey(table[j].0)
      {
        if i > 0 {
          assert table[i] == table[1..][i - 1] && table[j] == table[1..][j - 1];
        } else if j > 1 {
          assert table[1] == table[1..][0] && table[j] == table[1..][j - 1];
        }
      }
    }
  }

  /** The table above is well formed and strictly sorted by its keys. */
  lemma MinorUnitsSorted()
    ensures TableWellFormed(MinorUnits) && StrictlySorted(MinorUnits)
  {
    AdjacentSortedIsSorted(MinorUnits);
  }

  /** Reference lookup: the first entry whose code equals the argument. */
  function Lookup(table: seq<(string, nat)>, code: string): Option<nat>
  {
    if |table| == 0 then None
    else if table[0].0 == code then Some(table[0].1)
    else Lookup(table[1..], code)
  }

  lemma {:induction false} LookupFirst(table: seq<(string, nat)>, code: string, k: nat)
    requires k < |table| && table[k].0 == code
    requires forall j :: 0 <= j < k ==> table[j].0 != code
    ensures Lookup(table, code) == Some(table[k].1)
  {
    if k > 0 {
      assert table[1..][k - 1] == table[k];
      LookupFirst(table[1..], code, k - 1);
    }
  }

  lemma {:induction false} LookupAbsent(table: seq<(string, nat)>, code: string)
    requires forall j :: 0 <= j < |table| ==> table[j].0 != code
    ensures Lookup(table, code) == None
  {
    if |table| > 0 {
      LookupAbsent(table[1..], code);
    }
  }

  /** CurrencyDigits: the listed minor unit, or 2 for a code the table does not list. */
  function CurrencyDigits(code: string): nat {
    Lookup(MinorUnits, code).GetOr(2)
  }

  /** No currency in the table has more than four minor units. */
  lemma MinorUnitsAtMostFour()
    ensures forall i :: 0 <= i < |MinorUnits| ==> MinorUnits[i].1 <= 4
  {
  }

  /** A listed code gets its own table value. */
  lemma ListedCurrencyDigits(code: string, k: int)
    requires 0 <= k < |MinorUnits| && MinorUnits[k].0 == code
    ensures CurrencyDigits(code) == MinorUnits[k].1
  {
    MinorUnitsSorted();
    forall j | 0 <= j < |MinorUnits| && j != k ensures MinorUnits[j].0 != code {
      assert SortKey(MinorUnits[j].0) != SortKey(MinorUnits[k].0);
    }
    LookupFirst(MinorUnits, code, k);
  }

  /** Every listed code gets its own table value, and an unlisted code gets 2. */
  lemma CurrencyDigitsCases(code: string)
    ensures forall i :: 0 <= i < |MinorUnits| && MinorUnits[i].0 == code ==> CurrencyDigits(code) == MinorUnits[i].1
    ensures (forall i :: 0 <= i < |MinorUnits| ==> MinorUnits[i].0 != code) ==> CurrencyDigits(code) == 2
    ensures CurrencyDigits(code) <= 4
  {
    if k :| 0 <= k < |MinorUnits| && MinorUnits[k].0 == code {
      ListedCurrencyDigits(code, k);
      MinorUnitsAtMostFour();
      forall i | 0 <= i < |MinorUnits| && MinorUnits[i].0 == code ensures CurrencyDigits(code) == MinorUnits[i].1 {
        ListedCurrencyDigits(code, i);
      }
    } else {
      LookupAbsent(MinorUnits, code);
    }
  }

  lemma JapaneseYenDigits()
    ensures CurrencyDigits("JPY") == 0
  {
    LookupFirst(MinorUnits, "JPY", 10);
  }

  lemma KuwaitiDinarDigits()
    ensures CurrencyDigits("KWD") == 3
  {
    LookupFirst(MinorUnits, "KWD", 13);
  }

  lemma ChileanUnitDigits()
    ensures CurrencyDigits("CLF") == 4
  {
    LookupFirst(MinorUnits, "CLF", 3);
  }

  lemma UsDollarDigits()
    ensures CurrencyDigits("USD") == 2
  {
    MinorUnitsSorted();
    assert SortKey(MinorUnits[19].0) < SortKey("USD") < SortKey(MinorUnits[20].0);
    forall j | 0 <= j < |MinorUnits| ensures MinorUnits[j].0 != "USD" {
      assert SortKey(MinorUnits[j].0) != SortKey("USD");
    }
    LookupAbsent(MinorUnits, "USD");
  }

  /** computeCurrencyDigits: a binary search for the code's key in the sorted table. */
  method ComputeCurrencyDigits(code: string) returns (digits: nat)
    requires IsUpperCode(code)
    ensures digits == CurrencyDigits(code) && digits <= 4
  {
    MinorUnitsSorted();
    var key := SortKey(code);
    var lo, hi := 0, |MinorUnits|;
    while lo < hi
      invariant 0 <= lo <= hi <= |MinorUnits|
      invariant forall i :: 0 <= i < lo ==> SortKey(MinorUnits[i].0) < key
      invariant forall i :: hi <= i < |MinorUnits| ==> key < SortKey(MinorUnits[i].0)
      decreases hi - lo
    {
      var mid := lo + (hi - lo) / 2;
      var midKey := SortKey(MinorUnits[mid].0);
      if midKey == key {
        SortKeyInjective(MinorUnits[mid].0, code);
        CurrencyDigitsCases(code);
        return MinorUnits[mid].1;
      } else if key < midKey {
        hi := mid;
      } else {
        lo := mid + 1;
      }
    }
    CurrencyDigitsCases(code);
    digits := 2;
  }
}
