/**
  The record shapes of the tracker's schema that the modelled operations use:
  the kind of a transaction and the fields of a stored transaction.
 */
module Models {
  import opened Wrappers

  /** A point in time. Only the ordering of dates matters to the model. */
  type Date = int

  /** The two kinds of transaction the schema knows. */
  datatype TransactionType = Buy | Sell

  /** The category of an asset. */
  datatype AssetType = Stock | Crypto | Etf | MutualFund | OtherAsset

  /**
    A stored transaction. `fees` is a nullable column, hence the option;
    `quantity` and `pricePerUnit` are non-null decimal columns.
   */
  datatype Transaction = Transaction(
    id: int,
    ownerId: int,
    assetId: int,
    transactionType: TransactionType,
    quantity: real,
    pricePerUnit: real,
    transactionDate: Date,
    fees: Option<real>,
    notes: Option<string>)
}
