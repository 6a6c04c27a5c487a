/**
 * What the webhook learns from sources other than the slip text: the fields
 * the text-analysis service maps back (`analyzeTextWithLLM`), the overlay of
 * those fields on the parsed text, the merge of image or document evidence
 * into the parsed record (`mergeTransferData`) and the identity information of
 * an identity document (`extractIdCardInfo`).
 */
module Evidence {
  import opened Wrappers
  import opened Text
  import opened Records
  import Currency

  // ---------------------------------------------------------------- text analysis

  /** `if (result.x) mapped.y = result.x`: the value only when it is truthy. */
  function IfTruthy(o: Option<string>): (r: Option<string>)
    ensures r.Some? <==> Truthy(o)
    ensures r.Some? ==> r == o
  {
    if Truthy(o) then o else None
  }

  function IfTruthyNum(o: Option<real>): (r: Option<real>)
    ensures r.Some? <==> TruthyNum(o)
    ensures r.Some? ==> r == o
  {
    if TruthyNum(o) then o else None
  }

  function IfTruthyInt(o: Option<int>): (r: Option<int>)
    ensures r.Some? <==> TruthyInt(o)
    ensures r.Some? ==> r == o
  {
    if TruthyInt(o) then o else None
  }

  /**
   * The object `analyzeTextWithLLM` returns for the service's answer
   * `result`: `null` without an answer, otherwise the eight renamed fields
   * that are truthy.
   */
  function TextAnalysisFields(result: Option<Analysis>): (r: Option<Candidate>)
    ensures r.None? <==> result.None?
  {
    match result
    case None => None
    case Some(a) =>
      Some(Empty.(
        deposit_amount := IfTruthyNum(a.amount),
        currency := IfTruthy(a.currency),
        customer_name := IfTruthy(a.customer_name),
        receiving_account_name := IfTruthy(a.receiving_account_name),
        receiving_account_number := IfTruthy(a.receiving_account_number),
        bank_name := IfTruthy(a.bank_name),
        deposit_date := IfTruthy(a.date),
        maintenance_days := IfTruthyInt(a.maintenance_days)))
  }

  /** The mapped object holds only truthy values, and only in the eight mapped fields. */
  lemma TextAnalysisFieldsShape(a: Analysis)
    ensures var m := TextAnalysisFields(Some(a)).value;
      && (m.deposit_amount.Some? ==> TruthyNum(m.deposit_amount) && m.deposit_amount == a.amount)
      && (m.currency.Some? ==> Truthy(m.currency) && m.currency == a.currency)
      && (m.customer_name.Some? ==> Truthy(m.customer_name))
      && (m.receiving_account_name.Some? ==> Truthy(m.receiving_account_name))
      && (m.receiving_account_number.Some? ==> Truthy(m.receiving_account_number))
      && (m.bank_name.Some? ==> Truthy(m.bank_name))
      && (m.deposit_date.Some? ==> Truthy(m.deposit_date) && m.deposit_date == a.date)
      && (m.maintenance_days.Some? ==> TruthyInt(m.maintenance_days))
      && m.customer_age.None? && m.customer_nationality.None? && m.remittance_count.None?
      && m.exchange_rate.None? && m.commission_percentage.None? && m.calculation_mode.None?
      && m.bank_account.None?
  {
  }

  /** A field of the spread `{ ...base, ...top }`. */
  function Over<T>(b: Option<T>, t: Option<T>): (r: Option<T>)
    ensures t.Some? ==> r == t
    ensures t.None? ==> r == b
  {
    if t.Some? then t else b
  }

  /** `{ ...base, ...top }` for two candidates: every key of `top` wins. */
  function Overlay(base: Candidate, top: Candidate): (r: Candidate)
  {
    Candidate(
      Over(base.deposit_date, top.deposit_date),
      Over(base.maintenance_days, top.maintenance_days),
      Over(base.currency, top.currency),
      Over(base.customer_name, top.customer_name),
      Over(base.customer_age, top.customer_age),
      Over(base.customer_nationality, top.customer_nationality),
      Over(base.receiving_account_name, top.receiving_account_name),
      Over(base.receiving_account_number, top.receiving_account_number),
      Over(base.deposit_amount, top.deposit_amount),
      Over(base.remittance_count, top.remittance_count),
      Over(base.exchange_rate, top.exchange_rate),
      Over(base.commission_percentage, top.commission_percentage),
      Over(base.calculation_mode, top.calculation_mode),
      Over(base.bank_name, top.bank_name),
      Over(base.bank_account, top.bank_account))
  }

  /** Spreading `{}` over a record changes nothing, and spreading the same object twice is spreading it once. */
  lemma OverlayLaws(base: Candidate, top: Candidate)
    ensures Overlay(base, Empty) == base
    ensures Overlay(Overlay(base, top), top) == Overlay(base, top)
    ensures Overlay(Empty, top) == top
  {
  }

  /**
   * The service's amount replaces the parsed one when it gives a non-zero
   * amount, even when the parser found a different one; a parsed field the
   * service leaves out is kept.
   */
  lemma TextAnalysisOverwrites(parsed: Candidate, a: Analysis)
    ensures var r := Overlay(parsed, TextAnalysisFields(Some(a)).value);
      && r.deposit_amount == (if TruthyNum(a.amount) then a.amount else parsed.deposit_amount)
      && r.currency == (if Truthy(a.currency) then a.currency else parsed.currency)
      && r.calculation_mode == parsed.calculation_mode
      && r.exchange_rate == parsed.exchange_rate
      && r.commission_percentage == parsed.commission_percentage
      && r.remittance_count == parsed.remittance_count
  {
  }

  /**
   * What `analyzeDocument` hands on from the service's answer: the answer
   * only when it carries a truthy amount, otherwise nothing.
   */
  function DocumentEvidence(answer: Option<Analysis>): (r: Option<Analysis>)
    ensures r.Some? <==> answer.Some? && TruthyNum(answer.value.amount)
    ensures r.Some? ==> r == answer
  {
    if answer.Some? && TruthyNum(answer.value.amount) then answer else None
  }

  // ---------------------------------------------------------------- evidence merge

  /** `if (ev && !cur) cur = ev`: evidence fills a field only while it is falsy. */
  function FillUnset(cur: Option<string>, ev: Option<string>): (r: Option<string>)
    ensures Truthy(cur) ==> r == cur
    ensures !Truthy(cur) && Truthy(ev) ==> r == ev
    ensures !Truthy(cur) && !Truthy(ev) ==> r == cur
  {
    if Truthy(ev) && !Truthy(cur) then ev else cur
  }

  /** The currency evidence writes: its token's label, when the token is truthy and normalises. */
  function EvidenceCurrency(cur: Option<string>, ev: Option<string>): (r: Option<string>)
    ensures r != cur ==> Truthy(ev) && r == Currency.Normalize(ev.value)
  {
    if Truthy(ev) && Currency.Normalize(ev.value).Some? then Currency.Normalize(ev.value) else cur
  }

  /** The record `mergeTransferData(transferData, textData)` returns, field by field. */
  function Merged(td: Option<Analysis>, text: Candidate): (r: Candidate)
  {
    match td
    case None => text
    case Some(e) =>
      text.(
        deposit_amount := if TruthyNum(e.amount) then e.amount else text.deposit_amount,
        currency := EvidenceCurrency(text.currency, e.currency),
        receiving_account_name := FillUnset(text.receiving_account_name, e.recipient_name),
        receiving_account_number := FillUnset(text.receiving_account_number, e.account_number),
        bank_account := FillUnset(text.bank_account, e.account_number),
        bank_name := FillUnset(text.bank_name, e.bank_name),
        deposit_date := FillUnset(text.deposit_date, e.transfer_date))
  }

  /**
   * `mergeTransferData` as the source writes it: copy the text record, then
   * assign the evidence fields one by one.
   */
  method MergeTransferData(td: Option<Analysis>, text: Candidate) returns (merged: Candidate)
    ensures merged == Merged(td, text)
  {
    merged := text;
    if td.None? {
      return;
    }
    var e := td.value;
    if TruthyNum(e.amount) {
      merged := merged.(deposit_amount := e.amount);
    }
    assert merged == text.(deposit_amount := if TruthyNum(e.amount) then e.amount else text.deposit_amount);
    if Truthy(e.currency) {
      var normalized := Currency.Normalize(e.currency.value);
      if normalized.Some? {
        merged := merged.(currency := normalized);
      }
    }
    assert merged.currency == EvidenceCurrency(text.currency, e.currency);
    if Truthy(e.recipient_name) && !Truthy(merged.receiving_account_name) {
      merged := merged.(receiving_account_name := e.recipient_name);
    }
    assert merged.receiving_account_name == FillUnset(text.receiving_account_name, e.recipient_name);
    if Truthy(e.account_number) {
      if !Truthy(merged.receiving_account_number) {
        merged := merged.(receiving_account_number := e.account_number);
      }
      if !Truthy(merged.bank_account) {
        merged := merged.(bank_account := e.account_number);
      }
    }
    assert merged.receiving_account_number == FillUnset(text.receiving_account_number, e.account_number);
    assert merged.bank_account == FillUnset(text.bank_account, e.account_number);
    if Truthy(e.bank_name) && !Truthy(merged.bank_name) {
      merged := merged.(bank_name := e.bank_name);
    }
    assert merged.bank_name == FillUnset(text.bank_name, e.bank_name);
    if Truthy(e.transfer_date) && !Truthy(merged.deposit_date) {
      merged := merged.(deposit_date := e.transfer_date);
    }
    assert merged.deposit_date == FillUnset(text.deposit_date, e.transfer_date);
  }

  /**
   * The precedence rules of the merge: no evidence leaves the text record as
   * it is; a truthy evidence amount always wins; the currency changes only to
   * the label of a normalising evidence token; a field the text already holds
   * is never overwritten by recipient, account, bank or date evidence; the
   * other fields are never touched.
   */
  lemma MergePrecedence(td: Option<Analysis>, text: Candidate)
    ensures var r := Merged(td, text); td.None? ==> r == text
    ensures var r := Merged(td, text); td.Some? && TruthyNum(td.value.amount) ==> r.deposit_amount == td.value.amount
    ensures var r := Merged(td, text); td.Some? && !TruthyNum(td.value.amount) ==> r.deposit_amount == text.deposit_amount
    ensures var r := Merged(td, text); r.currency != text.currency ==>
      td.Some? && Truthy(td.value.currency) && r.currency == Currency.Normalize(td.value.currency.value)
    ensures var r := Merged(td, text); Truthy(text.receiving_account_name) ==> r.receiving_account_name == text.receiving_account_name
    ensures var r := Merged(td, text); Truthy(text.receiving_account_number) ==> r.receiving_account_number == text.receiving_account_number
    ensures var r := Merged(td, text); Truthy(text.bank_account) ==> r.bank_account == text.bank_account
    ensures var r := Merged(td, text); Truthy(text.bank_name) ==> r.bank_name == text.bank_name
    ensures var r := Merged(td, text); Truthy(text.deposit_date) ==> r.deposit_date == text.deposit_date
    ensures var r := Merged(td, text); r.customer_name == text.customer_name && r.customer_age == text.customer_age
    ensures var r := Merged(td, text); r.customer_nationality == text.customer_nationality
    ensures var r := Merged(td, text); r.maintenance_days == text.maintenance_days && r.remittance_count == text.remittance_count
    ensures var r := Merged(td, text); r.exchange_rate == text.exchange_rate && r.commission_percentage == text.commission_percentage
    ensures var r := Merged(td, text); r.calculation_mode == text.calculation_mode
  {
  }

  /** An unset field that the evidence carries is filled from it. */
  lemma MergeFillsUnset(e: Analysis, text: Candidate)
    ensures var r := Merged(Some(e), text);
      && (!Truthy(text.receiving_account_name) && Truthy(e.recipient_name) ==> r.receiving_account_name == e.recipient_name)
      && (!Truthy(text.receiving_account_number) && Truthy(e.account_number) ==> r.receiving_account_number == e.account_number)
      && (!Truthy(text.bank_account) && Truthy(e.account_number) ==> r.bank_account == e.account_number)
      && (!Truthy(text.bank_name) && Truthy(e.bank_name) ==> r.bank_name == e.bank_name)
      && (!Truthy(text.deposit_date) && Truthy(e.transfer_date) ==> r.deposit_date == e.transfer_date)
  {
  }

  /** Merging the same evidence twice is merging it once. */
  lemma {:induction false} MergeIdempotent(td: Option<Analysis>, text: Candidate)
    ensures Merged(td, Merged(td, text)) == Merged(td, text)
  {
    if td.Some? {
      var e := td.value;
      var once := Merged(td, text);
      if Truthy(e.currency) && Currency.Normalize(e.currency.value).Some? {
        assert once.currency == Currency.Normalize(e.currency.value);
      }
    }
  }

  /** A merged currency is one of the canonical labels whenever the text's currency was. */
  lemma MergeCurrencyCanonical(td: Option<Analysis>, text: Candidate)
    requires text.currency.Some? ==> text.currency.value in Currency.Labels
    ensures var r := Merged(td, text); r.currency.Some? ==> r.currency.value in Currency.Labels
  {
    var r := Merged(td, text);
    if r.currency != text.currency {
      Currency.NormalizeCanonical(td.value.currency.value);
    }
  }

  /**
   * The keys a document analysis returns are not the ones the merge reads:
   * evidence that carries only document keys contributes at most the amount,
   * the currency and the bank name.
   */
  lemma DocumentEvidenceFields(e: Analysis, text: Candidate)
    requires e.recipient_name.None? && e.account_number.None? && e.transfer_date.None?
    ensures var r := Merged(Some(e), text);
      r == text.(deposit_amount := r.deposit_amount, currency := r.currency, bank_name := r.bank_name)
  {
  }

  // ---------------------------------------------------------------- identity documents

  /** `extractIdCardInfo(analysisData)` in the year `year`. */
  function ExtractIdCardInfo(data: Option<Analysis>, year: int): (info: IdInfo)
    ensures data.None? ==> info == IdInfo("", None, "")
    ensures info.age.Some? ==> data.Some?
  {
    match data
    case None => IdInfo("", None, "")
    case Some(a) =>
      var name := if Truthy(a.name) then a.name.value else "";
      var nationality := if Truthy(a.nationality) then a.nationality.value else "";
      var age :=
        if Truthy(a.birth_date) then
          match ParseInt(Prefix(a.birth_date.value, 4))
          case Some(birthYear) => Some(year - birthYear)
          case None => None
        else if TruthyInt(a.age) then a.age
        else None;
      IdInfo(name, age, nationality)
  }

  /** A birth date that starts with four digits gives the age `year - YYYY`. */
  lemma AgeFromBirthYear(a: Analysis, year: int)
    requires Truthy(a.birth_date) && |a.birth_date.value| >= 4
    requires forall i :: 0 <= i < 4 ==> IsDigit(a.birth_date.value[i])
    ensures ExtractIdCardInfo(Some(a), year).age == Some(year - DigitsValue(a.birth_date.value[..4]))
  {
    assert Prefix(a.birth_date.value, 4) == a.birth_date.value[..4];
    ParseIntDigits(a.birth_date.value[..4]);
  }

  /** A birth date wins over a recorded age, even when it does not parse. */
  lemma BirthDateBeforeAge(a: Analysis, year: int)
    requires Truthy(a.birth_date)
    ensures ExtractIdCardInfo(Some(a), year).age == ExtractIdCardInfo(Some(a.(age := None)), year).age
  {
  }

  /**
   * Writing the extracted age back into the analysis (as the batch does
   * before extracting again) does not change what is extracted.
   */
  lemma ExtractAfterAgeWriteBack(a: Analysis, year: int)
    ensures var info := ExtractIdCardInfo(Some(a), year);
      ExtractIdCardInfo(Some(a.(age := info.age)), year) == info
  {
  }
}
