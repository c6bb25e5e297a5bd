/**
 * The receipts REST controller: warranty expiry arithmetic and the create,
 * update, delete and list operations over the database.
 */
module ReceiptController {
  import opened Wrappers
  import opened Text
  import opened Dates
  import opened ReceiptModel
  import opened Repository

  /** An HTTP response: 200 with a body, or another status with a text body. */
  datatype Response<T> = Ok(body: T) | Status(code: int, text: string)

  /** The lower-cased warranty labels that have an expiry. */
  const KnownLabels: set<string> := {"6 months", "1 year", "2 years", "3 years", "5 years", "lifetime"}

  function Lift(r: Result<Date, DateError>): (l: Result<Option<Date>, DateError>)
    ensures r.Success? <==> l.Success?
    ensures r.Success? ==> l.value == Some(r.value)
    ensures r.Failure? ==> l.error == r.error
  {
    match r
    case Success(d) => Success(Some(d))
    case Failure(e) => Failure(e)
  }

  /**
   * calculateExpiry: no start date or an unknown label gives no expiry (null);
   * a known label moves the start date forward by its duration, which raises
   * a DateTimeException (Failure) only when the year leaves LocalDate's range.
   */
  function CalculateExpiry(start: Option<Date>, duration: string): (r: Result<Option<Date>, DateError>)
    requires start.Some? ==> ValidDate(start.value)
    ensures start.None? ==> r == Success(None)
    ensures ToLower(duration) !in KnownLabels ==> r == Success(None)
    ensures r.Success? && r.value.Some? ==>
              start.Some? && ValidDate(r.value.value) && IsBefore(start.value, r.value.value)
  {
    if start.None? then Success(None)
    else
      var d := start.value;
      var lowered := ToLower(duration);
      if lowered == "6 months" then AfterMonths(d, 6)
      else if lowered == "1 year" then AfterYears(d, 1)
      else if lowered == "2 years" then AfterYears(d, 2)
      else if lowered == "3 years" then AfterYears(d, 3)
      else if lowered == "5 years" then AfterYears(d, 5)
      else if lowered == "lifetime" then AfterYears(d, 99)
      else Success(None)
  }

  /** start.plusMonths(months), as a nullable result. */
  function AfterMonths(d: Date, months: int): (r: Result<Option<Date>, DateError>)
    requires ValidDate(d) && months > 0
    ensures r == Lift(PlusMonths(d, months))
    ensures r.Success? ==> r.value.Some? && ValidDate(r.value.value) && IsBefore(d, r.value.value)
  {
    PlusMonthsIsLater(d, months);
    Lift(PlusMonths(d, months))
  }

  /** start.plusYears(years), as a nullable result. */
  function AfterYears(d: Date, years: int): (r: Result<Option<Date>, DateError>)
    requires ValidDate(d) && years > 0
    ensures r == Lift(PlusYears(d, years))
    ensures r.Success? ==> r.value.Some? && ValidDate(r.value.value) && IsBefore(d, r.value.value)
  {
    PlusYearsIsLater(d, years);
    Lift(PlusYears(d, years))
  }

  /** Label matching ignores case: a label and its lower-cased form give the same expiry. */
  lemma ExpiryIgnoresCase(start: Option<Date>, duration: string)
    requires start.Some? ==> ValidDate(start.value)
    ensures CalculateExpiry(start, duration) == CalculateExpiry(start, ToLower(duration))
  {
    ToLowerIdempotent(duration);
    ExpirySameUpToCase(start, duration, ToLower(duration));
  }

  /** Two labels that differ only in the case of their letters give the same expiry. */
  lemma ExpirySameUpToCase(start: Option<Date>, a: string, b: string)
    requires start.Some? ==> ValidDate(start.value)
    requires ToLower(a) == ToLower(b)
    ensures CalculateExpiry(start, a) == CalculateExpiry(start, b)
  {
  }

  /** The warranty length of each known label, counted in months. */
  function LabelMonths(name: string): (months: int)
    requires name in KnownLabels
    ensures months > 0
  {
    if name == "6 months" then 6
    else if name == "1 year" then 12
    else if name == "2 years" then 24
    else if name == "3 years" then 36
    else if name == "5 years" then 60
    else 99 * 12
  }

  /** A known label, in any case, moves the start date by exactly its number of months. */
  lemma ExpiryOfKnownLabel(d: Date, duration: string)
    requires ValidDate(d) && ToLower(duration) in KnownLabels
    ensures CalculateExpiry(Some(d), duration) == Lift(PlusMonths(d, LabelMonths(ToLower(duration))))
  {
    var lowered := ToLower(duration);
    if lowered == "1 year" {
      PlusYearsIsPlusMonths(d, 1);
    } else if lowered == "2 years" {
      PlusYearsIsPlusMonths(d, 2);
    } else if lowered == "3 years" {
      PlusYearsIsPlusMonths(d, 3);
    } else if lowered == "5 years" {
      PlusYearsIsPlusMonths(d, 5);
    } else if lowered == "lifetime" {
      PlusYearsIsPlusMonths(d, 99);
    }
  }

  /** "1 Year", as a user types it, matches "1 year". */
  lemma OneYearCapitalised(d: Date)
    requires ValidDate(d)
    ensures CalculateExpiry(Some(d), "1 Year") == CalculateExpiry(Some(d), "1 year")
  {
    ExpirySameUpToCase(Some(d), "1 Year", "1 year");
  }

  /** "Lifetime", as a user types it, matches "lifetime". */
  lemma LifetimeCapitalised(d: Date)
    requires ValidDate(d)
    ensures CalculateExpiry(Some(d), "Lifetime") == CalculateExpiry(Some(d), "lifetime")
  {
    ExpirySameUpToCase(Some(d), "Lifetime", "lifetime");
  }

  /** The form's "Other" choice has no expiry. */
  lemma OtherHasNoExpiry(d: Date)
    requires ValidDate(d)
    ensures CalculateExpiry(Some(d), "Other") == Success(None)
  {
  }

  /**
   * The request parameters shared by create and update. purchaseDate is the
   * outcome of LocalDate.parse on the posted text: a date, or the message of
   * the DateTimeParseException.
   */
  datatype ReceiptForm = ReceiptForm(
    storeName: string,
    productName: string,
    purchaseDate: Result<Date, string>,
    price: Decimal,
    category: string,
    warrantyDuration: string)

  /** A parsed LocalDate is always a valid date. */
  predicate WellFormed(form: ReceiptForm)
  {
    form.purchaseDate.Success? ==> ValidDate(form.purchaseDate.value)
  }

  /** The expiry a form asks for, once its purchase date has parsed. */
  function FormExpiry(form: ReceiptForm): Result<Option<Date>, DateError>
    requires WellFormed(form) && form.purchaseDate.Success?
  {
    CalculateExpiry(Some(form.purchaseDate.value), form.warrantyDuration)
  }

  /** The form is accepted: its date parses and its expiry stays within LocalDate's range. */
  predicate Acceptable(form: ReceiptForm)
    requires WellFormed(form)
  {
    form.purchaseDate.Success? && FormExpiry(form).Success?
  }

  /** The error text of a rejected form, after the operation's prefix. */
  function FormError(form: ReceiptForm): (message: string)
    requires WellFormed(form) && !Acceptable(form)
    ensures form.purchaseDate.Failure? ==> message == form.purchaseDate.error
    ensures form.purchaseDate.Success? ==>
              |message| > |YearErrorPrefix| && message[..|YearErrorPrefix|] == YearErrorPrefix
  {
    if form.purchaseDate.Failure? then form.purchaseDate.error
    else ErrorMessage(FormExpiry(form).error)
  }

  /** The row holds the six posted fields and the expiry computed from them. */
  predicate CarriesForm(row: ReceiptRow, form: ReceiptForm)
    requires WellFormed(form) && Acceptable(form)
  {
    && row.storeName == Some(form.storeName)
    && row.productName == Some(form.productName)
    && row.purchaseDate == Some(form.purchaseDate.value)
    && row.price == Some(form.price)
    && row.category == Some(form.category)
    && row.warrantyDuration == Some(form.warrantyDuration)
    && row.warrantyExpiryDate == FormExpiry(form).value
  }

  /** A multipart file is stored only when it is present and not empty. */
  function HasContent(file: Option<Bytes>): (nonEmpty: bool)
    ensures nonEmpty <==> file.Some? && file.value != []
  {
    file.Some? && |file.value| > 0
  }

  const CreateError: string := "Error creating receipt: "
  const UpdateError: string := "Error updating receipt: "

  class ReceiptController {
    const db: Database

    ghost predicate Valid()
      reads this, db
    {
      db.Valid()
    }

    constructor(db: Database)
      requires db.Valid()
      ensures this.db == db && Valid()
    {
      this.db := db;
    }

    /** GET /api/receipts/user/{userId}: the receipts of that user. */
    method GetUserReceipts(userId: int) returns (resp: Response<map<int, ReceiptRow>>)
      requires Valid()
      ensures resp.Ok?
      ensures forall k :: k in resp.body <==> k in db.receipts && OwnerId(db.receipts[k]) == Some(userId)
      ensures forall k :: k in resp.body ==> resp.body[k] == db.receipts[k]
    {
      resp := Ok(db.FindByUserId(userId));
    }

    /**
     * POST /api/receipts: build a new Receipt from the form for the user
     * userId and save it. An unknown user, an unparsable date or an expiry
     * out of range gives status 500 and stores nothing.
     */
    method CreateReceipt(form: ReceiptForm, userId: int, file: Option<Bytes>) returns (resp: Response<ReceiptRow>)
      requires Valid() && WellFormed(form)
      modifies db
      ensures Valid()
      ensures db.users == old(db.users)
      ensures userId !in db.users ==>
                resp == Status(500, CreateError + "User not found") && db.receipts == old(db.receipts)
      ensures userId in db.users && !Acceptable(form) ==>
                resp == Status(500, CreateError + FormError(form)) && db.receipts == old(db.receipts)
      ensures resp.Ok? <==> userId in db.users && Acceptable(form)
      ensures resp.Ok? ==>
                && resp.body.id == Some(old(db.nextReceiptId))
                && old(db.nextReceiptId) !in old(db.receipts)
                && db.receipts == old(db.receipts)[old(db.nextReceiptId) := resp.body]
                && CarriesForm(resp.body, form)
                && resp.body.user == Some(db.users[userId])
                && resp.body.pdfData == (if HasContent(file) then file else None)
    {
      var owner := db.FindUserById(userId);
      if owner.None? {
        return Status(500, CreateError + "User not found");
      }
      var receipt := new Receipt();
      receipt.SetStoreName(Some(form.storeName));
      receipt.SetProductName(Some(form.productName));
      if form.purchaseDate.Failure? {
        return Status(500, CreateError + form.purchaseDate.error);
      }
      var purchaseDate := form.purchaseDate.value;
      receipt.SetPurchaseDate(Some(purchaseDate));
      receipt.SetPrice(Some(form.price));
      receipt.SetCategory(Some(form.category));
      receipt.SetWarrantyDuration(Some(form.warrantyDuration));
      receipt.SetUser(owner);
      var expiry := CalculateExpiry(Some(purchaseDate), form.warrantyDuration);
      if expiry.Failure? {
        return Status(500, CreateError + ErrorMessage(expiry.error));
      }
      receipt.SetWarrantyExpiryDate(expiry.value);
      if HasContent(file) {
        receipt.SetPdfData(file);
      }
      var saved := db.SaveReceipt(receipt);
      resp := Ok(saved);
    }

    /** DELETE /api/receipts/{id}: 200 with an empty body, whether or not the receipt existed. */
    method DeleteReceipt(id: int) returns (resp: Response<()>)
      requires Valid()
      modifies db
      ensures Valid()
      ensures resp == Ok(())
      ensures id !in db.receipts
      ensures db.receipts == old(db.receipts) - {id}
      ensures db.users == old(db.users)
    {
      db.DeleteById(id);
      resp := Ok(());
    }

    /**
     * PUT /api/receipts/{id}: overwrite the six posted fields of a stored
     * receipt and recompute its expiry; its owner is kept, and so is its
     * PDF unless a non-empty file is posted.
     */
    method UpdateReceipt(id: int, form: ReceiptForm, file: Option<Bytes>) returns (resp: Response<ReceiptRow>)
      requires Valid() && WellFormed(form)
      modifies db
      ensures Valid()
      ensures db.users == old(db.users)
      ensures id !in old(db.receipts) ==>
                resp == Status(500, UpdateError + "Receipt not found") && db.receipts == old(db.receipts)
      ensures id in old(db.receipts) && !Acceptable(form) ==>
                resp == Status(500, UpdateError + FormError(form)) && db.receipts == old(db.receipts)
      ensures resp.Ok? <==> id in old(db.receipts) && Acceptable(form)
      ensures resp.Ok? ==>
                && resp.body.id == Some(id)
                && db.receipts == old(db.receipts)[id := resp.body]
                && CarriesForm(resp.body, form)
                && resp.body.user == old(db.receipts)[id].user
                && resp.body.pdfData == (if HasContent(file) then file else old(db.receipts)[id].pdfData)
    {
      var found := db.FindReceiptById(id);
      if found.None? {
        return Status(500, UpdateError + "Receipt not found");
      }
      var receipt := new Receipt.Load(found.value);
      receipt.SetStoreName(Some(form.storeName));
      receipt.SetProductName(Some(form.productName));
      if form.purchaseDate.Failure? {
        return Status(500, UpdateError + form.purchaseDate.error);
      }
      var purchaseDate := form.purchaseDate.value;
      receipt.SetPurchaseDate(Some(purchaseDate));
      receipt.SetPrice(Some(form.price));
      receipt.SetCategory(Some(form.category));
      receipt.SetWarrantyDuration(Some(form.warrantyDuration));
      var expiry := CalculateExpiry(Some(purchaseDate), form.warrantyDuration);
      if expiry.Failure? {
        return Status(500, UpdateError + ErrorMessage(expiry.error));
      }
      receipt.SetWarrantyExpiryDate(expiry.value);
      if HasContent(file) {
        receipt.SetPdfData(file);
      }
      var saved := db.SaveReceipt(receipt);
      resp := Ok(saved);
    }
  }
}
