/** The value records of the ledger: references, details, the optional
    fields a transaction is built from, the plain object a transaction is
    read back from, and the "append, or create the list" rule every list
    key follows. */
module Records {
  import opened Wrappers

  /** A name and a URI, e.g. pointing to an invoice or a policy document. */
  datatype Reference = Reference(name: string, uri: string)

  /** One line item of a transaction. `unitPrice` and `quantity` stand for
      the floats the source coerces them to. Details are made by NewDetail,
      which never keeps an empty unit; the datatype itself admits
      `Some("")`, and the transaction keys and `AddDetail` accept any
      detail, so that property is NewDetail's alone. */
  datatype Detail = Detail(item: string, unitPrice: real, quantity: real, unit: Option<string>)

  /** The only failure reading an object back can meet: a required key is
      not there (Python's KeyError). */
  datatype Error = MissingKey(key: string)

  /** Builds a detail. `quantity` defaults to 1; `unit` is kept only when it
      is truthy, so an empty unit string is dropped like a missing one. */
  function NewDetail(item: string, unitPrice: real, quantity: real := 1.0, unit: Option<string> := None): (d: Detail)
    ensures d.item == item && d.unitPrice == unitPrice && d.quantity == quantity
    ensures d.unit.Some? <==> unit.Some? && unit.value != ""
    ensures d.unit.Some? ==> d.unit == unit
  {
    Detail(item, unitPrice, quantity, if unit.Some? && unit.value != "" then unit else None)
  }

  /** Rebuilds a reference from a plain object: `name` is looked up first,
      then `uri`; every other key of the object is dropped. */
  function RebuildReference(obj: map<string, string>): (r: Result<Reference, Error>)
    ensures r.Success? <==> "name" in obj && "uri" in obj
    ensures "name" !in obj ==> r == Failure(MissingKey("name"))
    ensures "name" in obj && "uri" !in obj ==> r == Failure(MissingKey("uri"))
    ensures r.Success? ==> r.value.name == obj["name"] && r.value.uri == obj["uri"]
  {
    if "name" !in obj then Failure(MissingKey("name"))
    else if "uri" !in obj then Failure(MissingKey("uri"))
    else Success(Reference(obj["name"], obj["uri"]))
  }

  /** A reference read back from its own two keys is the same reference, and
      keys other than `name` and `uri` make no difference. */
  lemma RebuildReferenceRoundTrip(ref: Reference, extra: map<string, string>)
    ensures RebuildReference(extra + map["name" := ref.name, "uri" := ref.uri]) == Success(ref)
  {
  }

  /** The list-key rule: append `x` when the list is present, otherwise
      create the one-element list. The list is never left absent. */
  function AppendOrCreate<T>(xs: Option<seq<T>>, x: T): (r: Option<seq<T>>)
    ensures r.Some? && |r.value| == |Elements(xs)| + 1
    ensures r.value[..|Elements(xs)|] == Elements(xs) && r.value[|Elements(xs)|] == x
    ensures xs.None? ==> r.value == [x]
  {
    match xs
    case None => Some([x])
    case Some(s) => Some(s + [x])
  }

  /** Two appends in a row keep both elements, in call order, after the
      earlier ones: `add_label(a)` then `add_label(b)` on a transaction
      without labels yields exactly `[a, b]`. */
  lemma AppendOrCreateTwice<T>(xs: Option<seq<T>>, a: T, b: T)
    ensures AppendOrCreate(AppendOrCreate(xs, a), b) == Some(Elements(xs) + [a, b])
    ensures xs.None? ==> AppendOrCreate(AppendOrCreate(xs, a), b) == Some([a, b])
  {
    var once := AppendOrCreate(xs, a).value;
    assert once == Elements(xs) + [a];
    assert AppendOrCreate(Some(once), b).value == once + [b] == Elements(xs) + [a, b];
    if xs.None? {
      assert Elements(xs) + [a, b] == [a, b];
    }
  }

  const DefaultKind: string := "cheque"
  const DefaultStatus: string := "pending"

  /** The keyword arguments of a transaction besides `date` and `amount`;
      `None` means the keyword was not passed. `kind` is the "type" key. */
  datatype TransactionParams = TransactionParams(
    kind: Option<string>,
    id: Option<string>,
    status: Option<string>,
    payee: Option<string>,
    payer: Option<string>,
    category: Option<string>,
    description: Option<string>,
    comments: Option<string>,
    labels: Option<seq<string>>,
    signedBy: Option<seq<string>>,
    references: Option<seq<Reference>>,
    details: Option<seq<Detail>>)

  const NoParams: TransactionParams :=
    TransactionParams(None, None, None, None, None, None, None, None, None, None, None, None)

  /** A transaction as a plain object, e.g. one element of a parsed
      ledger's "transactions" list: `date` and `amount` may be missing. */
  datatype RawTransaction = RawTransaction(date: Option<string>, amount: Option<real>, params: TransactionParams)

  /** The value of a transaction: its keys, `None` for an absent key. */
  datatype TransactionRecord = TransactionRecord(
    amount: real,
    date: string,
    kind: string,
    id: Option<string>,
    status: string,
    payee: Option<string>,
    payer: Option<string>,
    category: Option<string>,
    description: Option<string>,
    comments: Option<string>,
    labels: Option<seq<string>>,
    signedBy: Option<seq<string>>,
    references: Option<seq<Reference>>,
    details: Option<seq<Detail>>)

  /** The record a freshly constructed transaction holds. */
  function Initial(date: string, amount: real, params: TransactionParams): (r: TransactionRecord)
    ensures r.date == date && r.amount == amount
    ensures params.kind.None? ==> r.kind == DefaultKind
    ensures params.kind.Some? ==> r.kind == params.kind.value
    ensures params.status.None? ==> r.status == DefaultStatus
    ensures params.status.Some? ==> r.status == params.status.value
    ensures r.id == params.id && r.payee == params.payee && r.payer == params.payer
    ensures r.category == params.category && r.description == params.description && r.comments == params.comments
    ensures r.labels == params.labels && r.signedBy == params.signedBy
    ensures r.references == params.references && r.details == params.details
  {
    TransactionRecord(
      amount, date, params.kind.GetOr(DefaultKind), params.id, params.status.GetOr(DefaultStatus),
      params.payee, params.payer, params.category, params.description, params.comments,
      params.labels, params.signedBy, params.references, params.details)
  }

  /** A transaction constructed from `date` and `amount` alone: type
      "cheque", status "pending" and no other key. */
  lemma InitialWithoutParams(date: string, amount: real)
    ensures Initial(date, amount, NoParams) ==
      TransactionRecord(amount, date, "cheque", None, "pending", None, None, None, None, None, None, None, None, None)
  {
  }

  /** Reading a transaction back from a plain object: `date` is taken out
      first, then `amount`, and the rest are the keyword arguments. */
  function Decode(raw: RawTransaction): (r: Result<TransactionRecord, Error>)
    ensures r == Failure(MissingKey("date")) <==> raw.date.None?
    ensures r == Failure(MissingKey("amount")) <==> raw.date.Some? && raw.amount.None?
    ensures r.Success? <==> raw.date.Some? && raw.amount.Some?
    ensures r.Success? ==> r.value == Initial(raw.date.value, raw.amount.value, raw.params)
  {
    if raw.date.None? then Failure(MissingKey("date"))
    else if raw.amount.None? then Failure(MissingKey("amount"))
    else Success(Initial(raw.date.value, raw.amount.value, raw.params))
  }

  /** A transaction as a plain object: every key it holds. */
  function ToObject(rec: TransactionRecord): (raw: RawTransaction)
    ensures raw.date == Some(rec.date) && raw.amount == Some(rec.amount)
  {
    RawTransaction(Some(rec.date), Some(rec.amount), TransactionParams(
      Some(rec.kind), rec.id, Some(rec.status), rec.payee, rec.payer, rec.category,
      rec.description, rec.comments, rec.labels, rec.signedBy, rec.references, rec.details))
  }

  /** Reading a transaction back from its own keys gives the same record. */
  lemma DecodeToObject(rec: TransactionRecord)
    ensures Decode(ToObject(rec)) == Success(rec)
  {
  }
}
