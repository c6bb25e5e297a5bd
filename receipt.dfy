/**
 * The Receipt entity: a mutable record whose every field starts out null and
 * is overwritten in place by its setter.
 */
module ReceiptModel {
  import opened Wrappers
  import opened Dates

  /** A stored user (User.java is not part of this model; only these three fields are used). */
  datatype User = User(id: int, username: string, password: string)

  /** java.math.BigDecimal, kept opaque: an unscaled value and a scale. */
  datatype Decimal = Decimal(unscaled: int, scale: int)

  /** Raw bytes of an attached PDF. */
  type Bytes = seq<bv8>

  /** The values of all fields of a Receipt at one moment; None stands for null. */
  datatype ReceiptRow = ReceiptRow(
    id: Option<int>,
    storeName: Option<string>,
    productName: Option<string>,
    purchaseDate: Option<Date>,
    price: Option<Decimal>,
    category: Option<string>,
    pdfData: Option<Bytes>,
    warrantyDuration: Option<string>,
    warrantyExpiryDate: Option<Date>,
    user: Option<User>)

  /** The row of a freshly constructed Receipt: every field null. */
  const Unset: ReceiptRow := ReceiptRow(None, None, None, None, None, None, None, None, None, None)

  class Receipt {
    var id: Option<int>
    var storeName: Option<string>
    var productName: Option<string>
    var purchaseDate: Option<Date>
    var price: Option<Decimal>
    var category: Option<string>
    var pdfData: Option<Bytes>
    var warrantyDuration: Option<string>
    var warrantyExpiryDate: Option<Date>
    var user: Option<User>

    /** What the getters return, all at once. */
    function Row(): ReceiptRow
      reads this
    {
      ReceiptRow(id, storeName, productName, purchaseDate, price, category,
                 pdfData, warrantyDuration, warrantyExpiryDate, user)
    }

    /** new Receipt(): no field is set. */
    constructor()
      ensures Row() == Unset
    {
      id, storeName, productName, purchaseDate, price := None, None, None, None, None;
      category, pdfData, warrantyDuration, warrantyExpiryDate, user := None, None, None, None, None;
    }

    /** The entity the persistence layer hands out for a stored row. */
    constructor Load(row: ReceiptRow)
      ensures Row() == row
    {
      id, storeName, productName, purchaseDate, price := row.id, row.storeName, row.productName, row.purchaseDate, row.price;
      category, pdfData, warrantyDuration := row.category, row.pdfData, row.warrantyDuration;
      warrantyExpiryDate, user := row.warrantyExpiryDate, row.user;
    }

    method SetId(v: Option<int>)
      modifies this
      ensures Row() == old(Row()).(id := v)
    {
      id := v;
    }

    method SetStoreName(v: Option<string>)
      modifies this
      ensures Row() == old(Row()).(storeName := v)
    {
      storeName := v;
    }

    method SetProductName(v: Option<string>)
      modifies this
      ensures Row() == old(Row()).(productName := v)
    {
      productName := v;
    }

    method SetPurchaseDate(v: Option<Date>)
      modifies this
      ensures Row() == old(Row()).(purchaseDate := v)
    {
      purchaseDate := v;
    }

    method SetPrice(v: Option<Decimal>)
      modifies this
      ensures Row() == old(Row()).(price := v)
    {
      price := v;
    }

    method SetCategory(v: Option<string>)
      modifies this
      ensures Row() == old(Row()).(category := v)
    {
      category := v;
    }

    method SetPdfData(v: Option<Bytes>)
      modifies this
      ensures Row() == old(Row()).(pdfData := v)
    {
      pdfData := v;
    }

    /** Setting the duration leaves the stored expiry date as it was. */
    method SetWarrantyDuration(v: Option<string>)
      modifies this
      ensures Row() == old(Row()).(warrantyDuration := v)
      ensures warrantyExpiryDate == old(warrantyExpiryDate)
    {
      warrantyDuration := v;
    }

    method SetWarrantyExpiryDate(v: Option<Date>)
      modifies this
      ensures Row() == old(Row()).(warrantyExpiryDate := v)
    {
      warrantyExpiryDate := v;
    }

    method SetUser(v: Option<User>)
      modifies this
      ensures Row() == old(Row()).(user := v)
    {
      user := v;
    }
  }
}
