/**
 * The values the ingestion pipeline passes around: the candidate transaction
 * (the webhook's `data` object), the JSON results of the AI analyses and the
 * identity information taken from an identity document.
 *
 * A field that the JavaScript object lacks is `None`. Later code tests fields
 * for truthiness, so an empty string or a zero is "set" for `in` but not for
 * `||`: `Truthy` and `TruthyNum` (in `Wrappers`) make that distinction explicit.
 */
module Records {
  import opened Wrappers

  /** `calculation_mode`: 进算 or 拖算. */
  datatype Mode = Jin | Tuo

  function ModeText(m: Mode): string {
    match m
    case Jin => "进算"
    case Tuo => "拖算"
  }

  /**
   * The candidate transaction. `None` in a numeric field also stands for the
   * NaN that `parseFloat` yields on text such as ".", which every reader
   * treats like a missing value.
   */
  datatype Candidate = Candidate(
    deposit_date: Option<string>,
    maintenance_days: Option<int>,
    currency: Option<string>,
    customer_name: Option<string>,
    customer_age: Option<int>,
    customer_nationality: Option<string>,
    receiving_account_name: Option<string>,
    receiving_account_number: Option<string>,
    deposit_amount: Option<real>,
    remittance_count: Option<int>,
    exchange_rate: Option<real>,
    commission_percentage: Option<real>,
    calculation_mode: Option<Mode>,
    bank_name: Option<string>,
    bank_account: Option<string>)

  /** `{}`. */
  const Empty := Candidate(None, None, None, None, None, None, None, None, None, None, None, None, None, None, None)


  /** The fields of a candidate, for statements about which of them an operation changes. */
  datatype Field =
    | DepositDate | MaintenanceDays | Currency | CustomerName | CustomerAge | CustomerNationality
    | ReceivingAccountName | ReceivingAccountNumber | DepositAmount | RemittanceCount
    | ExchangeRate | CommissionPercentage | CalculationMode | BankName | BankAccount

  /** The two candidates hold different values in field `f`. */
  predicate Differs(a: Candidate, b: Candidate, f: Field) {
    match f
    case DepositDate => a.deposit_date != b.deposit_date
    case MaintenanceDays => a.maintenance_days != b.maintenance_days
    case Currency => a.currency != b.currency
    case CustomerName => a.customer_name != b.customer_name
    case CustomerAge => a.customer_age != b.customer_age
    case CustomerNationality => a.customer_nationality != b.customer_nationality
    case ReceivingAccountName => a.receiving_account_name != b.receiving_account_name
    case ReceivingAccountNumber => a.receiving_account_number != b.receiving_account_number
    case DepositAmount => a.deposit_amount != b.deposit_amount
    case RemittanceCount => a.remittance_count != b.remittance_count
    case ExchangeRate => a.exchange_rate != b.exchange_rate
    case CommissionPercentage => a.commission_percentage != b.commission_percentage
    case CalculationMode => a.calculation_mode != b.calculation_mode
    case BankName => a.bank_name != b.bank_name
    case BankAccount => a.bank_account != b.bank_account
  }

  /** `image_type` of an image analysis. */
  datatype ImageType = IdCard | TransferReceipt | OtherImage

  /**
   * A JSON object returned by an AI analysis (of an image, a document or the
   * message text), or an archived `analysis_result`. Each analysis fills its
   * own keys: an image gives `image_type`, `name`, `birth_date`,
   * `nationality`, `amount`, `currency`, `recipient_name`, `account_number`,
   * `bank_name`, `transfer_date`; a document or the text gives `amount`,
   * `currency`, `customer_name`, `receiving_account_name`,
   * `receiving_account_number`, `bank_name`, `date` (and the text also
   * `maintenance_days`); the batch writes `age` back.
   */
  datatype Analysis = Analysis(
    image_type: Option<ImageType>,
    name: Option<string>,
    birth_date: Option<string>,
    nationality: Option<string>,
    age: Option<int>,
    amount: Option<real>,
    currency: Option<string>,
    recipient_name: Option<string>,
    account_number: Option<string>,
    bank_name: Option<string>,
    transfer_date: Option<string>,
    customer_name: Option<string>,
    receiving_account_name: Option<string>,
    receiving_account_number: Option<string>,
    date: Option<string>,
    maintenance_days: Option<int>)

  /** The object with no keys. */
  const NoAnalysis := Analysis(None, None, None, None, None, None, None, None, None, None, None, None, None, None, None, None)

  /** What `extractIdCardInfo` returns. */
  datatype IdInfo = IdInfo(name: string, age: Option<int>, nationality: string)
}
