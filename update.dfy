/**
  Editing a stored transaction (src/crud.py, `update_transaction`): the
  quantity, price and fees that would result are validated together, every
  other supplied field is converted on its own, and only then are the
  supplied fields written to the record, one `setattr` at a time.
 */
module TransactionUpdate {
  import opened Wrappers
  import opened Models
  import opened Validation
  import opened Text

  /** A value in the `updates` dictionary, by its Python type. */
  datatype Input =
    | Num(n: real)                    // an int, float or Decimal
    | Str(s: string)
    | DateTime(d: Date)               // a datetime object
    | Member(t: TransactionType)      // a TransactionType member
    | Null                            // None

  /**
    What the update depends on besides the record and the dictionary: text
    parsing done by library code (`Decimal(str)`, `int(str)`, `strptime` with
    either accepted format), and the ids of the assets the user owns.
   */
  datatype Environment = Environment(
    parseDecimal: string -> Option<real>,
    parseInt: string -> Option<int>,
    parseDate: string -> Option<Date>,
    ownedAssets: set<int>)

  /** The fields an update can write. */
  datatype Field = QuantityField | PriceField | FeesField | DateField | TypeField | AssetField | NotesField

  /** A new value for one field. */
  datatype Assignment =
    | NewQuantity(quantity: real)
    | NewPrice(pricePerUnit: real)
    | NewFees(fees: Option<real>)
    | NewDate(date: Date)
    | NewType(transactionType: TransactionType)
    | NewAsset(assetId: int)
    | NewNotes(notes: Option<string>)

  /** Why an update was refused. */
  datatype UpdateError =
    | InvalidAmounts(reason: ValidationError)  // the merged quantity, price and fees do not validate
    | InvalidField(key: string)                // a value of this key could not be converted
    | NotText(key: string)                     // `notes` got a non-empty value that is not a string

  /** The dictionary key of each field. */
  function KeyOf(f: Field): string {
    match f
    case QuantityField => "quantity"
    case PriceField => "price_per_unit"
    case FeesField => "fees"
    case DateField => "transaction_date"
    case TypeField => "transaction_type"
    case AssetField => "asset_id"
    case NotesField => "notes"
  }

  /** The field a key names, if the update handles that key; any other key is ignored. */
  function FieldOfKey(key: string): (f: Option<Field>)
    ensures f.Some? ==> KeyOf(f.value) == key
    ensures f.None? ==> forall g: Field :: KeyOf(g) != key
  {
    if key == "quantity" then Some(QuantityField)
    else if key == "price_per_unit" then Some(PriceField)
    else if key == "fees" then Some(FeesField)
    else if key == "transaction_date" then Some(DateField)
    else if key == "transaction_type" then Some(TypeField)
    else if key == "asset_id" then Some(AssetField)
    else if key == "notes" then Some(NotesField)
    else None
  }

  /** A key names a field exactly when it is that field's key. */
  lemma KeyOfField(key: string, f: Field)
    ensures key == KeyOf(f) <==> FieldOfKey(key) == Some(f)
  {
  }

  /** The three fields validated together. */
  predicate IsAmount(f: Field) {
    f == QuantityField || f == PriceField || f == FeesField
  }

  function FieldOf(a: Assignment): Field {
    match a
    case NewQuantity(_) => QuantityField
    case NewPrice(_) => PriceField
    case NewFees(_) => FeesField
    case NewDate(_) => DateField
    case NewType(_) => TypeField
    case NewAsset(_) => AssetField
    case NewNotes(_) => NotesField
  }

  /** The current value of a field of a transaction. */
  function Get(t: Transaction, f: Field): (a: Assignment)
    ensures FieldOf(a) == f
  {
    match f
    case QuantityField => NewQuantity(t.quantity)
    case PriceField => NewPrice(t.pricePerUnit)
    case FeesField => NewFees(t.fees)
    case DateField => NewDate(t.transactionDate)
    case TypeField => NewType(t.transactionType)
    case AssetField => NewAsset(t.assetId)
    case NotesField => NewNotes(t.notes)
  }

  /** `setattr` of one field. */
  function Apply(t: Transaction, a: Assignment): (r: Transaction)
    ensures Get(r, FieldOf(a)) == a
    ensures forall f :: f != FieldOf(a) ==> Get(r, f) == Get(t, f)
    ensures r.id == t.id && r.ownerId == t.ownerId
  {
    match a
    case NewQuantity(q) => t.(quantity := q)
    case NewPrice(p) => t.(pricePerUnit := p)
    case NewFees(f) => t.(fees := f)
    case NewDate(d) => t.(transactionDate := d)
    case NewType(k) => t.(transactionType := k)
    case NewAsset(id) => t.(assetId := id)
    case NewNotes(n) => t.(notes := n)
  }

  /** The assignments applied in order. */
  function ApplyAll(t: Transaction, assignments: seq<Assignment>): Transaction {
    if assignments == [] then t
    else Apply(ApplyAll(t, assignments[..|assignments| - 1]), assignments[|assignments| - 1])
  }

  /** The last assignment to field `f`, if any. */
  function Find(assignments: seq<Assignment>, f: Field): (a: Option<Assignment>)
    ensures a.Some? ==> FieldOf(a.value) == f
  {
    if assignments == [] then None
    else if FieldOf(assignments[|assignments| - 1]) == f then Some(assignments[|assignments| - 1])
    else Find(assignments[..|assignments| - 1], f)
  }

  /** The value `updates` holds for `key` (a dictionary holds each key once; the last entry is taken). */
  function Lookup(updates: seq<(string, Input)>, key: string): Option<Input> {
    if updates == [] then None
    else if updates[|updates| - 1].0 == key then Some(updates[|updates| - 1].1)
    else Lookup(updates[..|updates| - 1], key)
  }

  // ---------------------------------------------------------------------------
  // Converting the supplied values

  /** `Decimal(str(value))`: numbers are taken as they are, text is parsed, anything else is not a decimal. */
  function DecimalOf(v: Input, env: Environment): DecimalInput {
    match v
    case Num(n) => Number(n)
    case Str(s) => if env.parseDecimal(s).Some? then Number(env.parseDecimal(s).value) else NotANumber
    case _ => NotANumber
  }

  /** Python's `int(x)` of a number: truncation toward zero. */
  function Truncate(n: real): (i: int)
    ensures n >= 0.0 ==> i as real <= n < i as real + 1.0
    ensures n < 0.0 ==> i as real - 1.0 < n <= i as real
  {
    if n >= 0.0 then n.Floor else -((-n).Floor)
  }

  /** Python truthiness of an input. */
  predicate Truthy(v: Input) {
    match v
    case Num(n) => n != 0.0
    case Str(s) => s != []
    case DateTime(_) => true
    case Member(_) => true
    case Null => false
  }

  /**
    The new value of one field from the supplied input. For the amounts this
    is the conversion only; they are checked together with the values they
    are merged with.
   */
  function ConvertField(f: Field, v: Input, env: Environment): (r: Result<Assignment, UpdateError>)
    ensures r.Ok? ==> FieldOf(r.value) == f
    ensures IsAmount(f) ==> (r.Ok? <==> DecimalOf(v, env).Number?)
    ensures IsAmount(f) && r.Err? ==> r.error == InvalidAmounts(InvalidNumber)
    ensures f == DateField ==> (r.Ok? <==> v.DateTime? || (v.Str? && env.parseDate(v.s).Some?))
    ensures f == DateField && r.Ok? ==> r.value == NewDate(if v.DateTime? then v.d else env.parseDate(v.s).value)
    ensures f == TypeField ==> (r.Ok? <==> v.Member? || (v.Str? && (Upper(v.s) == "BUY" || Upper(v.s) == "SELL")))
    ensures f == TypeField && v.Member? ==> r == Ok(NewType(v.t))
    ensures f == TypeField && v.Str? && r.Ok? ==> r.value == NewType(if Upper(v.s) == "BUY" then Buy else Sell)
    ensures f == AssetField ==>
      (r.Ok? <==> (v.Num? && Truncate(v.n) in env.ownedAssets)
                  || (v.Str? && env.parseInt(v.s).Some? && env.parseInt(v.s).value in env.ownedAssets))
    ensures f == AssetField && r.Ok? ==> r.value == NewAsset(if v.Num? then Truncate(v.n) else env.parseInt(v.s).value)
    ensures !IsAmount(f) && f != NotesField && r.Err? ==> r.error == InvalidField(KeyOf(f))
    ensures f == NotesField ==> (r.Err? <==> Truthy(v) && !v.Str?)
    ensures f == NotesField && r.Err? ==> r.error == NotText(KeyOf(f))
    ensures f == NotesField && r.Ok? ==> r.value == NewNotes(if v.Str? && v.s != [] then Some(Strip(v.s)) else None)
  {
    match f
    case QuantityField =>
      if DecimalOf(v, env).Number? then Ok(NewQuantity(DecimalOf(v, env).value)) else Err(InvalidAmounts(InvalidNumber))
    case PriceField =>
      if DecimalOf(v, env).Number? then Ok(NewPrice(DecimalOf(v, env).value)) else Err(InvalidAmounts(InvalidNumber))
    case FeesField =>
      if DecimalOf(v, env).Number? then Ok(NewFees(Some(DecimalOf(v, env).value))) else Err(InvalidAmounts(InvalidNumber))
    case DateField =>
      (match v
       case DateTime(d) => Ok(NewDate(d))
       case Str(s) => if env.parseDate(s).Some? then Ok(NewDate(env.parseDate(s).value)) else Err(InvalidField(KeyOf(f)))
       case _ => Err(InvalidField(KeyOf(f))))
    case TypeField =>
      (match v
       case Member(k) => Ok(NewType(k))
       case Str(s) =>
         if Upper(s) == "BUY" then Ok(NewType(Buy))
         else if Upper(s) == "SELL" then Ok(NewType(Sell))
         else Err(InvalidField(KeyOf(f)))
       case _ => Err(InvalidField(KeyOf(f))))
    case AssetField =>
      var id := (match v
        case Num(n) => Some(Truncate(n))
        case Str(s) => env.parseInt(s)
        case _ => None);
      if id.Some? && id.value in env.ownedAssets then Ok(NewAsset(id.value)) else Err(InvalidField(KeyOf(f)))
    case NotesField =>
      if !Truthy(v) then Ok(NewNotes(None))
      else if v.Str? then Ok(NewNotes(Some(Strip(v.s))))
      else Err(NotText(KeyOf(f)))
  }

  /** `updates.get(key, default)` turned into a decimal. */
  function MergedDecimal(updates: seq<(string, Input)>, f: Field, default: Input, env: Environment): DecimalInput {
    match Lookup(updates, KeyOf(f))
    case Some(v) => DecimalOf(v, env)
    case None => DecimalOf(default, env)
  }

  /** A nullable decimal column read back as an input. */
  function NullableNum(x: Option<real>): Input {
    match x
    case Some(n) => Num(n)
    case None => Null
  }

  /** The quantity, price and fees the record would have, validated together. */
  function MergedAmounts(t: Transaction, updates: seq<(string, Input)>, env: Environment): Result<Amounts, ValidationError> {
    ValidateTransactionData(
      MergedDecimal(updates, QuantityField, Num(t.quantity), env),
      MergedDecimal(updates, PriceField, Num(t.pricePerUnit), env),
      MergedDecimal(updates, FeesField, NullableNum(t.fees), env))
  }

  /** The validated amounts, for those of the three keys that were supplied, in the order quantity, price, fees. */
  function AmountAssignments(updates: seq<(string, Input)>, a: Amounts): seq<Assignment> {
    (if Lookup(updates, KeyOf(QuantityField)).Some? then [NewQuantity(a.quantity)] else [])
    + (if Lookup(updates, KeyOf(PriceField)).Some? then [NewPrice(a.pricePerUnit)] else [])
    + (if Lookup(updates, KeyOf(FeesField)).Some? then [NewFees(Some(a.fees))] else [])
  }

  /**
    The other supplied fields converted in dictionary order; the first key
    whose value cannot be converted refuses the whole update. Amount keys and
    keys the update does not handle add nothing.
   */
  function Converted(updates: seq<(string, Input)>, env: Environment): Result<seq<Assignment>, UpdateError> {
    if updates == [] then Ok([])
    else
      match Converted(updates[..|updates| - 1], env)
      case Err(e) => Err(e)
      case Ok(assignments) =>
        var (key, value) := updates[|updates| - 1];
        match FieldOfKey(key)
        case None => Ok(assignments)
        case Some(f) =>
          if IsAmount(f) then Ok(assignments)
          else
            match ConvertField(f, value, env)
            case Err(e) => Err(e)
            case Ok(a) => Ok(assignments + [a])
  }

  /** The assignments `update_transaction` makes, or why it refuses. */
  function ValidatedUpdates(t: Transaction, updates: seq<(string, Input)>, env: Environment): Result<seq<Assignment>, UpdateError> {
    match MergedAmounts(t, updates, env)
    case Err(reason) => Err(InvalidAmounts(reason))
    case Ok(a) =>
      match Converted(updates, env)
      case Err(e) => Err(e)
      case Ok(others) => Ok(AmountAssignments(updates, a) + others)
  }

  /** The record after `update_transaction`, or why it was refused (the record then stays as it was). */
  function UpdatedTransaction(t: Transaction, updates: seq<(string, Input)>, env: Environment): Result<Transaction, UpdateError> {
    match ValidatedUpdates(t, updates, env)
    case Err(e) => Err(e)
    case Ok(assignments) => Ok(ApplyAll(t, assignments))
  }

  // ---------------------------------------------------------------------------
  // The stored record and the update

  /** A stored transaction whose fields `update_transaction` sets in place. */
  class TransactionRecord {
    const id: int
    const ownerId: int
    var assetId: int
    var transactionType: TransactionType
    var quantity: real
    var pricePerUnit: real
    var transactionDate: Date
    var fees: Option<real>
    var notes: Option<string>

    /** The record's current field values. */
    function Snapshot(): Transaction
      reads this
    {
      Transaction(id, ownerId, assetId, transactionType, quantity, pricePerUnit, transactionDate, fees, notes)
    }

    constructor(t: Transaction)
      ensures Snapshot() == t
    {
      id, ownerId, assetId := t.id, t.ownerId, t.assetId;
      transactionType, quantity, pricePerUnit := t.transactionType, t.quantity, t.pricePerUnit;
      transactionDate, fees, notes := t.transactionDate, t.fees, t.notes;
    }

    /** `setattr(record, key, value)` for one validated assignment. */
    method Assign(a: Assignment)
      modifies this
      ensures Snapshot() == Apply(old(Snapshot()), a)
    {
      match a
      case NewQuantity(q) => quantity := q;
      case NewPrice(p) => pricePerUnit := p;
      case NewFees(f) => fees := f;
      case NewDate(d) => transactionDate := d;
      case NewType(k) => transactionType := k;
      case NewAsset(i) => assetId := i;
      case NewNotes(n) => notes := n;
    }

    /** The `setattr` loop: the assignments written in order. */
    method AssignAll(assignments: seq<Assignment>)
      modifies this
      ensures Snapshot() == ApplyAll(old(Snapshot()), assignments)
    {
      for j := 0 to |assignments|
        invariant Snapshot() == ApplyAll(old(Snapshot()), assignments[..j])
      {
        assert assignments[..j + 1][..j] == assignments[..j];
        Assign(assignments[j]);
      }
      assert assignments[..|assignments|] == assignments;
    }
  }

  /**
    Validates the merged amounts, converts the other supplied fields in
    dictionary order into the validated updates, and, unless there are none,
    writes them to the record. A refusal leaves the record untouched.
   */
  method UpdateTransaction(record: TransactionRecord, updates: seq<(string, Input)>, env: Environment)
    returns (r: Result<Transaction, UpdateError>)
    modifies record
    ensures r == UpdatedTransaction(old(record.Snapshot()), updates, env)
    ensures r.Ok? ==> record.Snapshot() == r.value
    ensures r.Err? ==> record.Snapshot() == old(record.Snapshot())
  {
    var t := record.Snapshot();
    var amounts := MergedAmounts(t, updates, env);
    if amounts.Err? {
      return Err(InvalidAmounts(amounts.error));
    }
    var others := ConvertUpdates(updates, env);
    if others.Err? {
      return Err(others.error);
    }
    var validated := AmountAssignments(updates, amounts.value) + others.value;
    if validated == [] {
      return Ok(t);
    }
    record.AssignAll(validated);
    return Ok(record.Snapshot());
  }

  /**
    The loop over the dictionary that fills the validated updates with the
    fields other than the amounts, stopping at the first value that cannot be
    converted.
   */
  method ConvertUpdates(updates: seq<(string, Input)>, env: Environment) returns (r: Result<seq<Assignment>, UpdateError>)
    ensures r == Converted(updates, env)
  {
    var validated := [];
    for i := 0 to |updates|
      invariant Converted(updates[..i], env) == Ok(validated)
    {
      var (key, value) := updates[i];
      assert updates[..i + 1][..i] == updates[..i];
      var f := FieldOfKey(key);
      if f.None? || IsAmount(f.value) {
        continue;
      }
      var a := ConvertField(f.value, value, env);
      if a.Err? {
        ConvertedErrorStays(updates, env, i + 1);
        return Err(a.error);
      }
      validated := validated + [a.value];
    }
    assert updates[..|updates|] == updates;
    return Ok(validated);
  }

  /** Once a prefix of the dictionary is refused, the whole dictionary is refused for the same reason. */
  lemma {:induction false} ConvertedErrorStays(updates: seq<(string, Input)>, env: Environment, i: nat)
    requires i <= |updates| && Converted(updates[..i], env).Err?
    ensures Converted(updates, env) == Converted(updates[..i], env)
    decreases |updates| - i
  {
    if i < |updates| {
      var n := |updates| - 1;
      assert updates[..n][..i] == updates[..i];
      ConvertedErrorStays(updates[..n], env, i);
    } else {
      assert updates[..i] == updates;
    }
  }

  // ---------------------------------------------------------------------------
  // What an update does to the record

  /** A transaction is determined by its id, its owner and the fields an update can write. */
  lemma SameFields(x: Transaction, y: Transaction)
    requires x.id == y.id && x.ownerId == y.ownerId
    requires forall f :: Get(x, f) == Get(y, f)
    ensures x == y
  {
    assert Get(x, QuantityField) == Get(y, QuantityField) && Get(x, PriceField) == Get(y, PriceField);
    assert Get(x, FeesField) == Get(y, FeesField) && Get(x, DateField) == Get(y, DateField);
    assert Get(x, TypeField) == Get(y, TypeField) && Get(x, AssetField) == Get(y, AssetField);
    assert Get(x, NotesField) == Get(y, NotesField);
  }

  /** After a sequence of assignments a field holds the last value assigned to it, or its old value if none was. */
  lemma {:induction false} ApplyAllFind(t: Transaction, assignments: seq<Assignment>, f: Field)
    ensures var r := ApplyAll(t, assignments);
      r.id == t.id && r.ownerId == t.ownerId
      && Get(r, f) == (match Find(assignments, f) case None => Get(t, f) case Some(a) => a)
  {
    if assignments != [] {
      ApplyAllFind(t, assignments[..|assignments| - 1], f);
    }
  }

  /** The last assignment to a field in two runs of assignments comes from the second run if it has one. */
  lemma {:induction false} FindAppend(first: seq<Assignment>, second: seq<Assignment>, f: Field)
    ensures Find(first + second, f) == if Find(second, f).Some? then Find(second, f) else Find(first, f)
  {
    if second != [] {
      var n := |second| - 1;
      assert (first + second)[..|first| + n] == first + second[..n];
      FindAppend(first, second[..n], f);
    } else {
      assert first + second == first;
    }
  }

  /** In at most one assignment, the last one to a field is that one if it is to the field. */
  lemma FindOne(assignments: seq<Assignment>, f: Field)
    requires |assignments| <= 1
    ensures Find(assignments, f) == if assignments != [] && FieldOf(assignments[0]) == f then Some(assignments[0]) else None
  {
  }

  /** The amount assignments hold exactly the supplied amount keys, with the validated values. */
  lemma AmountAssignmentsFind(updates: seq<(string, Input)>, a: Amounts, f: Field)
    ensures Find(AmountAssignments(updates, a), f) ==
      if !IsAmount(f) || Lookup(updates, KeyOf(f)).None? then None
      else if f == QuantityField then Some(NewQuantity(a.quantity))
      else if f == PriceField then Some(NewPrice(a.pricePerUnit))
      else Some(NewFees(Some(a.fees)))
  {
    var q := if Lookup(updates, KeyOf(QuantityField)).Some? then [NewQuantity(a.quantity)] else [];
    var p := if Lookup(updates, KeyOf(PriceField)).Some? then [NewPrice(a.pricePerUnit)] else [];
    var fs := if Lookup(updates, KeyOf(FeesField)).Some? then [NewFees(Some(a.fees))] else [];
    FindThree(q, p, fs, f);
    FindOne(q, f);
    FindOne(p, f);
    FindOne(fs, f);
  }

  /** The last assignment to a field in three runs: from the last run that has one. */
  lemma FindThree(q: seq<Assignment>, p: seq<Assignment>, fs: seq<Assignment>, f: Field)
    ensures Find(q + p + fs, f) ==
      if Find(fs, f).Some? then Find(fs, f) else if Find(p, f).Some? then Find(p, f) else Find(q, f)
  {
    FindAppend(q + p, fs, f);
    FindAppend(q, p, f);
  }

  /**
    The converted fields hold, for every handled field other than the
    amounts, the conversion of the value supplied for its key, and nothing for
    a field whose key is not supplied.
   */
  lemma {:induction false} ConvertedFind(updates: seq<(string, Input)>, env: Environment, f: Field)
    requires Converted(updates, env).Ok?
    ensures var found := Find(Converted(updates, env).value, f);
      if IsAmount(f) || Lookup(updates, KeyOf(f)).None? then found.None?
      else found.Some? && ConvertField(f, Lookup(updates, KeyOf(f)).value, env) == Ok(found.value)
  {
    if updates != [] {
      var n := |updates| - 1;
      var front := updates[..n];
      var (key, value) := updates[n];
      assert Converted(front, env).Ok?;
      var cs := Converted(front, env).value;
      var g := FieldOfKey(key);
      KeyOfField(key, f);
      if g.Some? && !IsAmount(g.value) {
        var a := ConvertField(g.value, value, env).value;
        assert Converted(updates, env).value == cs + [a];
        FindAppend(cs, [a], f);
        if g.value != f {
          ConvertedFind(front, env, f);
        }
      } else {
        assert Converted(updates, env).value == cs;
        ConvertedFind(front, env, f);
      }
    }
  }

  /**
    A successful update writes exactly the supplied fields: a field whose key
    was not supplied keeps its value, a supplied one holds the conversion of
    the supplied value; id and owner never change.
   */
  lemma UpdateSetsOnlySuppliedFields(t: Transaction, updates: seq<(string, Input)>, env: Environment)
    requires UpdatedTransaction(t, updates, env).Ok?
    ensures var r := UpdatedTransaction(t, updates, env).value;
      r.id == t.id && r.ownerId == t.ownerId
      && (forall f :: Lookup(updates, KeyOf(f)).None? ==> Get(r, f) == Get(t, f))
      && (forall f :: Lookup(updates, KeyOf(f)).Some? ==> ConvertField(f, Lookup(updates, KeyOf(f)).value, env) == Ok(Get(r, f)))
  {
    var a := MergedAmounts(t, updates, env).value;
    var amounts := AmountAssignments(updates, a);
    var others := Converted(updates, env).value;
    var r := UpdatedTransaction(t, updates, env).value;
    assert r == ApplyAll(t, amounts + others);
    forall f
      ensures Get(r, f) == (match Find(amounts + others, f) case None => Get(t, f) case Some(x) => x)
      ensures Find(amounts + others, f) == if Find(others, f).Some? then Find(others, f) else Find(amounts, f)
    {
      ApplyAllFind(t, amounts + others, f);
      FindAppend(amounts, others, f);
    }
    ApplyAllFind(t, amounts + others, QuantityField);
    forall f | Lookup(updates, KeyOf(f)).None?
      ensures Get(r, f) == Get(t, f)
    {
      AmountAssignmentsFind(updates, a, f);
      ConvertedFind(updates, env, f);
    }
    forall f | Lookup(updates, KeyOf(f)).Some?
      ensures ConvertField(f, Lookup(updates, KeyOf(f)).value, env) == Ok(Get(r, f))
    {
      AmountAssignmentsFind(updates, a, f);
      ConvertedFind(updates, env, f);
    }
  }

  /**
    After a successful update the three amounts are the validated merged
    ones: the supplied value where one was supplied, the record's own value
    otherwise.
   */
  lemma UpdatedAmounts(t: Transaction, updates: seq<(string, Input)>, env: Environment)
    requires UpdatedTransaction(t, updates, env).Ok?
    ensures var a := MergedAmounts(t, updates, env).value; var r := UpdatedTransaction(t, updates, env).value;
      r.quantity == a.quantity && r.pricePerUnit == a.pricePerUnit && r.fees == Some(a.fees)
  {
    var a := MergedAmounts(t, updates, env).value;
    var amounts := AmountAssignments(updates, a);
    var others := Converted(updates, env).value;
    var r := UpdatedTransaction(t, updates, env).value;
    assert r == ApplyAll(t, amounts + others);
    forall f | IsAmount(f)
      ensures Get(r, f) == (match Find(amounts, f) case None => Get(t, f) case Some(x) => x)
    {
      ApplyAllFind(t, amounts + others, f);
      FindAppend(amounts, others, f);
      ConvertedFind(updates, env, f);
    }
    AmountAssignmentsFind(updates, a, QuantityField);
    AmountAssignmentsFind(updates, a, PriceField);
    AmountAssignmentsFind(updates, a, FeesField);
  }

  /** A successful update leaves the record with fees and with amounts that pass validation. */
  lemma UpdateKeepsAmountsValid(t: Transaction, updates: seq<(string, Input)>, env: Environment)
    requires UpdatedTransaction(t, updates, env).Ok?
    ensures var r := UpdatedTransaction(t, updates, env).value;
      r.fees.Some? && Acceptable(r.quantity, r.pricePerUnit, r.fees.value)
  {
    UpdatedAmounts(t, updates, env);
  }

  /** Writing the same assignments twice leaves the record as writing them once. */
  lemma ApplyAllTwice(t: Transaction, assignments: seq<Assignment>)
    ensures ApplyAll(ApplyAll(t, assignments), assignments) == ApplyAll(t, assignments)
  {
    var r := ApplyAll(t, assignments);
    forall f
      ensures Get(ApplyAll(r, assignments), f) == Get(r, f)
    {
      ApplyAllFind(t, assignments, f);
      ApplyAllFind(r, assignments, f);
    }
    ApplyAllFind(t, assignments, QuantityField);
    ApplyAllFind(r, assignments, QuantityField);
    SameFields(ApplyAll(r, assignments), r);
  }

  /** Submitting the same accepted changes again is accepted and changes nothing more. */
  lemma UpdateIdempotent(t: Transaction, updates: seq<(string, Input)>, env: Environment)
    requires UpdatedTransaction(t, updates, env).Ok?
    ensures var r := UpdatedTransaction(t, updates, env).value;
      UpdatedTransaction(r, updates, env) == Ok(r)
  {
    var r := UpdatedTransaction(t, updates, env).value;
    UpdatedAmounts(t, updates, env);
    assert MergedDecimal(updates, QuantityField, Num(r.quantity), env) == MergedDecimal(updates, QuantityField, Num(t.quantity), env);
    assert MergedDecimal(updates, PriceField, Num(r.pricePerUnit), env) == MergedDecimal(updates, PriceField, Num(t.pricePerUnit), env);
    assert MergedDecimal(updates, FeesField, NullableNum(r.fees), env) == MergedDecimal(updates, FeesField, NullableNum(t.fees), env);
    assert MergedAmounts(r, updates, env) == MergedAmounts(t, updates, env);
    ApplyAllTwice(t, ValidatedUpdates(t, updates, env).value);
  }

  /** A key that no entry of the dictionary carries has no value. */
  lemma {:induction false} LookupAbsent(updates: seq<(string, Input)>, key: string)
    requires forall i :: 0 <= i < |updates| ==> updates[i].0 != key
    ensures Lookup(updates, key).None?
  {
    if updates != [] {
      LookupAbsent(updates[..|updates| - 1], key);
    }
  }

  /**
    The other supplied fields convert exactly when every entry with a handled
    key other than an amount converts.
   */
  lemma {:induction false} ConvertedOkIff(updates: seq<(string, Input)>, env: Environment)
    ensures Converted(updates, env).Ok? <==>
      forall i :: 0 <= i < |updates| && FieldOfKey(updates[i].0).Some? && !IsAmount(FieldOfKey(updates[i].0).value)
        ==> ConvertField(FieldOfKey(updates[i].0).value, updates[i].1, env).Ok?
  {
    if updates != [] {
      var n := |updates| - 1;
      var front := updates[..n];
      ConvertedOkIff(front, env);
      assert forall i :: 0 <= i < n ==> front[i] == updates[i];
    }
  }

  /** With no handled key in the dictionary, nothing is converted. */
  lemma {:induction false} ConvertedIgnored(updates: seq<(string, Input)>, env: Environment)
    requires forall i :: 0 <= i < |updates| ==> FieldOfKey(updates[i].0).None?
    ensures Converted(updates, env) == Ok([])
  {
    if updates != [] {
      ConvertedIgnored(updates[..|updates| - 1], env);
    }
  }

  /**
    A dictionary of keys the update does not handle leaves a record with valid
    amounts as it is (and nothing is written).
   */
  lemma OnlyIgnoredKeysKeepRecord(t: Transaction, updates: seq<(string, Input)>, env: Environment)
    requires forall i :: 0 <= i < |updates| ==> FieldOfKey(updates[i].0).None?
    requires t.fees.Some? && Acceptable(t.quantity, t.pricePerUnit, t.fees.value)
    ensures ValidatedUpdates(t, updates, env) == Ok([])
    ensures UpdatedTransaction(t, updates, env) == Ok(t)
  {
    LookupAbsent(updates, KeyOf(QuantityField));
    LookupAbsent(updates, KeyOf(PriceField));
    LookupAbsent(updates, KeyOf(FeesField));
    var a := Amounts(t.quantity, t.pricePerUnit, t.fees.value);
    assert MergedAmounts(t, updates, env) == Ok(a);
    assert AmountAssignments(updates, a) == [];
    ConvertedIgnored(updates, env);
  }

  /**
    A value under "quantity", "price_per_unit" or "fees" that is None, a
    datetime, a transaction type or text that reads as no decimal refuses the
    update as an invalid number, whatever the other keys hold.
   */
  lemma NonDecimalAmountRefused(t: Transaction, updates: seq<(string, Input)>, env: Environment, f: Field)
    requires IsAmount(f) && Lookup(updates, KeyOf(f)).Some?
    requires var v := Lookup(updates, KeyOf(f)).value;
      v.Null? || v.DateTime? || v.Member? || (v.Str? && env.parseDecimal(v.s).None?)
    ensures UpdatedTransaction(t, updates, env) == Err(InvalidAmounts(InvalidNumber))
  {
    assert MergedDecimal(updates, f, Null, env) == NotANumber;
  }

  /**
    A record whose fees are NULL cannot be updated unless the update supplies
    fees: the merged fees are not a decimal.
   */
  lemma NullFeesRefuseUpdate(t: Transaction, updates: seq<(string, Input)>, env: Environment)
    requires t.fees.None? && Lookup(updates, KeyOf(FeesField)).None?
    ensures UpdatedTransaction(t, updates, env) == Err(InvalidAmounts(InvalidNumber))
  {
  }
}
