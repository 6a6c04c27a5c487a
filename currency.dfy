/**
 * The currency-token normaliser of the ingestion pipeline
 * (`normalizeCurrency` over `CURRENCY_MAP_ZH`): a raw token is upper-cased and
 * mapped to the canonical label of the first table key it contains.
 */
module Currency {
  import opened Wrappers
  import opened Text

  datatype Entry = Entry(key: string, canonical: string)

  /** The ISO part of the table, in its declaration order (`RMB` is an alias of `CNY`). */
  const IsoTable: seq<Entry> := [
    Entry("EUR", "EUR欧元"), Entry("USD", "USD美元"), Entry("GBP", "GBP英镑"),
    Entry("SGD", "SGD新元"), Entry("MYR", "MYR马币"), Entry("AUD", "AUD澳币"),
    Entry("CHF", "CHF瑞郎"), Entry("THB", "THB泰铢"), Entry("VND", "VND越南盾"),
    Entry("CAD", "CAD加元"), Entry("HKD", "HKD港币"), Entry("KRW", "KRW韩币"),
    Entry("CNY", "CNY人民币"), Entry("RMB", "CNY人民币"), Entry("JPY", "JPY日元"),
    Entry("AED", "AED迪拉姆"), Entry("PHP", "PHP菲律宾比索"), Entry("IDR", "IDR印尼盾")
  ]

  /** The single-character Chinese keys, which the object spread places after the ISO keys. */
  const HanTable: seq<Entry> := [
    Entry("欧", "EUR欧元"), Entry("美", "USD美元"), Entry("英", "GBP英镑"), Entry("新", "SGD新元"),
    Entry("马", "MYR马币"), Entry("澳", "AUD澳币"), Entry("瑞", "CHF瑞郎"), Entry("泰", "THB泰铢"),
    Entry("越", "VND越南盾"), Entry("加", "CAD加元"), Entry("港", "HKD港币"), Entry("韩", "KRW韩币"),
    Entry("人", "CNY人民币"), Entry("日", "JPY日元"), Entry("迪", "AED迪拉姆"),
    Entry("菲", "PHP菲律宾比索"), Entry("印", "IDR印尼盾")
  ]

  /** `CURRENCY_MAP_ZH` in `Object.entries` order. */
  const Table: seq<Entry> := IsoTable + HanTable

  /** The canonical currency labels the pipeline stores. */
  const Labels: set<string> := {
    "EUR欧元", "USD美元", "GBP英镑", "SGD新元", "MYR马币", "AUD澳币", "CHF瑞郎", "THB泰铢",
    "VND越南盾", "CAD加元", "HKD港币", "KRW韩币", "CNY人民币", "JPY日元", "AED迪拉姆",
    "PHP菲律宾比索", "IDR印尼盾"
  }

  /** The index of the first entry of `table` whose key occurs in `s`. */
  function FirstKeyIn(table: seq<Entry>, s: string): (r: Option<nat>)
    ensures r.Some? ==> r.value < |table| && Contains(s, table[r.value].key)
    ensures r.Some? ==> forall j :: 0 <= j < r.value ==> !Contains(s, table[j].key)
    ensures r.None? ==> forall j :: 0 <= j < |table| ==> !Contains(s, table[j].key)
  {
    if |table| == 0 then None
    else if Contains(s, table[0].key) then Some(0)
    else match FirstKeyIn(table[1..], s)
      case None => None
      case Some(k) => Some(k + 1)
  }

  /** `normalizeCurrency(raw)`. */
  function Normalize(raw: string): (r: Option<string>)
  {
    match FirstKeyIn(Table, Upper(raw))
    case None => None
    case Some(i) => Some(Table[i].canonical)
  }

  /** The result is null exactly when no table key occurs in the upper-cased token. */
  lemma NormalizeNone(raw: string)
    ensures Normalize(raw).None? <==> forall j :: 0 <= j < |Table| ==> !Contains(Upper(raw), Table[j].key)
  {
  }

  /** A result is the label of the first table key contained in the upper-cased token. */
  lemma NormalizeFirstKey(raw: string)
    requires Normalize(raw).Some?
    ensures exists i :: (0 <= i < |Table| && Contains(Upper(raw), Table[i].key)
                         && (forall j :: 0 <= j < i ==> !Contains(Upper(raw), Table[j].key))
                         && Normalize(raw) == Some(Table[i].canonical))
  {
    var i := FirstKeyIn(Table, Upper(raw)).value;
    assert Contains(Upper(raw), Table[i].key);
  }

  /** Every label in the table is canonical. */
  lemma TableLabelsCanonical(i: nat)
    requires i < |Table|
    ensures Table[i].canonical in Labels
  {
  }

  /** Any non-null result is one of the canonical labels. */
  lemma NormalizeCanonical(raw: string)
    ensures Normalize(raw).Some? ==> Normalize(raw).value in Labels
  {
    if Normalize(raw).Some? {
      TableLabelsCanonical(FirstKeyIn(Table, Upper(raw)).value);
    }
  }

  /** ISO codes win over Chinese characters: a token containing an ISO key maps to an ISO entry's label. */
  lemma {:induction false} IsoBeforeHan(raw: string, k: nat)
    requires k < |IsoTable| && Contains(Upper(raw), IsoTable[k].key)
    ensures Normalize(raw).Some?
    ensures exists i :: 0 <= i <= k && Normalize(raw) == Some(IsoTable[i].canonical)
  {
    assert Table[k] == IsoTable[k];
    var i := FirstKeyIn(Table, Upper(raw)).value;
    assert i <= k;
    assert Table[i] == IsoTable[i];
  }

  /** The ASCII letters of a token may be written in either case. */
  lemma NormalizeIgnoresCase(raw: string)
    ensures Normalize(Lower(raw)) == Normalize(raw)
  {
    assert Upper(Lower(raw)) == Upper(raw);
  }

  /** A three-letter code is contained in "code + Chinese name" only as that code. */
  lemma {:induction false} CodeInLabel(code: string, name: string, p: string)
    requires |code| == 3 && |p| == 3
    requires forall i :: 0 <= i < 3 ==> IsAsciiLetter(p[i])
    requires forall i :: 0 <= i < |name| ==> IsHan(name[i])
    ensures Contains(code + name, p) <==> p == code
  {
    var l := code + name;
    assert l[..3] == code;
    if p == code { ContainsAt(l, p, 0); }
    if Contains(l, p) {
      var i := Occurrence(l, p);
      assert i == 0 by {
        assert l[i..i + 3][2] == l[i + 2];
      }
    }
  }

  /** The first table entry whose key occurs is found by `FirstKeyIn`. */
  lemma {:induction false} FirstKeyAt(table: seq<Entry>, s: string, i: nat)
    requires i < |table| && Contains(s, table[i].key)
    requires forall j :: 0 <= j < i ==> !Contains(s, table[j].key)
    ensures FirstKeyIn(table, s) == Some(i)
  {
    if i > 0 {
      FirstKeyAt(table[1..], s, i - 1);
    }
  }

  /** The Chinese part of each ISO label, in table order. */
  const IsoNames: seq<string> := [
    "欧元", "美元", "英镑", "新元", "马币", "澳币", "瑞郎", "泰铢", "越南盾", "加元", "港币",
    "韩币", "人民币", "人民币", "日元", "迪拉姆", "菲律宾比索", "印尼盾"
  ]

  predicate AllHan(s: string) { forall k :: 0 <= k < |s| ==> IsHan(s[k]) }

  lemma IsoNamesHan(i: nat)
    requires i < |IsoNames|
    ensures AllHan(IsoNames[i])
  {
    match i
    case 0 => case 1 => case 2 => case 3 => case 4 => case 5 => case 6 => case 7 => case 8 =>
    case 9 => case 10 => case 11 => case 12 => case 13 => case 14 => case 15 => case 16 => case 17 =>
  }

  /** An ISO entry has an upper-case three-letter key and a label of three letters and a Chinese name. */
  lemma IsoTableShaped(i: nat)
    requires i < |IsoTable|
    ensures |IsoTable[i].key| == 3 && forall k :: 0 <= k < 3 ==> 'A' <= IsoTable[i].key[k] <= 'Z'
    ensures |IsoTable[i].canonical| > 3 && IsoTable[i].canonical[3..] == IsoNames[i]
    ensures i != 13 ==> IsoTable[i].canonical[..3] == IsoTable[i].key
  {
    IsoKeyUpper(i);
    IsoLabelSplit(i);
  }

  lemma IsoKeyUpper(i: nat)
    requires i < |IsoTable|
    ensures |IsoTable[i].key| == 3 && forall k :: 0 <= k < 3 ==> 'A' <= IsoTable[i].key[k] <= 'Z'
  {
    match i
    case 0 => case 1 => case 2 => case 3 => case 4 => case 5 => case 6 => case 7 => case 8 =>
    case 9 => case 10 => case 11 => case 12 => case 13 => case 14 => case 15 => case 16 => case 17 =>
  }

  lemma IsoLabelSplit(i: nat)
    requires i < |IsoTable|
    ensures |IsoTable[i].canonical| > 3 && IsoTable[i].canonical[3..] == IsoNames[i]
    ensures i != 13 ==> IsoTable[i].canonical[..3] == IsoTable[i].key
  {
    if i < 9 { IsoLabelSplitLow(i); } else { IsoLabelSplitHigh(i); }
  }

  lemma IsoLabelSplitLow(i: nat)
    requires i < 9
    ensures |IsoTable[i].canonical| > 3 && IsoTable[i].canonical[3..] == IsoNames[i]
    ensures IsoTable[i].canonical[..3] == IsoTable[i].key
  {
    match i
    case 0 => case 1 => case 2 => case 3 => case 4 => case 5 => case 6 => case 7 => case 8 =>
  }

  lemma IsoLabelSplitHigh(i: nat)
    requires 9 <= i < |IsoTable|
    ensures |IsoTable[i].canonical| > 3 && IsoTable[i].canonical[3..] == IsoNames[i]
    ensures i != 13 ==> IsoTable[i].canonical[..3] == IsoTable[i].key
  {
    match i
    case 9 => case 10 => case 11 => case 12 => case 13 => case 14 => case 15 => case 16 => case 17 =>
  }

  lemma IsoKeysDistinct(i: nat, j: nat)
    requires j < i < |IsoTable| && i != 13
    ensures IsoTable[j].key != IsoTable[i].key
  {
  }

  /** Normalising is idempotent: a canonical label normalises to itself. */
  lemma NormalizeLabel(i: nat)
    requires i < |IsoTable| && i != 13
    ensures Normalize(IsoTable[i].canonical) == Some(IsoTable[i].canonical)
  {
    var l := IsoTable[i].canonical;
    IsoTableShaped(i);
    IsoNamesHan(i);
    var code, name := IsoTable[i].key, l[3..];
    assert l == code + name;
    assert Upper(l) == l;
    forall j | 0 <= j <= i ensures Contains(l, Table[j].key) <==> j == i {
      assert Table[j] == IsoTable[j];
      IsoTableShaped(j);
      assert forall k :: 0 <= k < 3 ==> IsAsciiLetter(Table[j].key[k]);
      if j < i { IsoKeysDistinct(i, j); }
      CodeInLabel(code, name, Table[j].key);
    }
    FirstKeyAt(Table, l, i);
  }

  /** The ISO entry (other than the `RMB` alias) that carries the label of table entry `i`. */
  function LabelEntry(i: nat): (j: nat)
    requires i < |Table|
    ensures j < |IsoTable| && j != 13
  {
    if i < |IsoTable| then (if i == 13 then 12 else i)
    else if i - |IsoTable| <= 12 then i - |IsoTable|
    else i - |IsoTable| + 1
  }

  lemma LabelEntryLabel(i: nat)
    requires i < |Table|
    ensures Table[i].canonical == IsoTable[LabelEntry(i)].canonical
  {
    if i < |IsoTable| {
      assert Table[i] == IsoTable[i];
    } else {
      var j := i - |IsoTable|;
      assert Table[i] == HanTable[j];
      HanLabel(j);
    }
  }

  /** Each Chinese key carries the label of the ISO entry of the same currency. */
  lemma HanLabel(j: nat)
    requires j < |HanTable|
    ensures HanTable[j].canonical == IsoTable[if j <= 12 then j else j + 1].canonical
  {
    match j
    case 0 => case 1 => case 2 => case 3 => case 4 => case 5 => case 6 => case 7 => case 8 =>
    case 9 => case 10 => case 11 => case 12 => case 13 => case 14 => case 15 => case 16 =>
  }

  /** Normalising is idempotent: a normalised currency normalises to itself. */
  lemma NormalizeIdempotent(raw: string)
    requires Normalize(raw).Some?
    ensures Normalize(Normalize(raw).value) == Normalize(raw)
  {
    var i := FirstKeyIn(Table, Upper(raw)).value;
    LabelEntryLabel(i);
    NormalizeLabel(LabelEntry(i));
  }
}
