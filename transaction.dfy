/** A debit or credit transaction: a record whose list keys grow in place
    and whose status may be overwritten. */
module Transactions {
  import opened Wrappers
  import opened Records

  class Transaction {
    /** Positive for a credit, negative for a debit. Set once. */
    const amount: real
    /** Any string the caller gives; only ever compared, never parsed. Set once. */
    const date: string
    /** The "type" key. */
    var kind: string
    var id: Option<string>
    var status: string
    var payee: Option<string>
    var payer: Option<string>
    var category: Option<string>
    var description: Option<string>
    var comments: Option<string>
    var labels: Option<seq<string>>
    /** The "signed-by" key. */
    var signedBy: Option<seq<string>>
    var references: Option<seq<Reference>>
    var details: Option<seq<Detail>>

    /** The keys this transaction holds now. */
    function View(): TransactionRecord
      reads this
    {
      TransactionRecord(amount, date, kind, id, status, payee, payer, category,
        description, comments, labels, signedBy, references, details)
    }

    /** `Transaction(date, amount, **params)`: type and status take their
        defaults, every other key is present only when it was passed. */
    constructor (date: string, amount: real, params: TransactionParams)
      ensures View() == Initial(date, amount, params)
    {
      this.amount := amount;
      this.date := date;
      kind := params.kind.GetOr(DefaultKind);
      id := params.id;
      status := params.status.GetOr(DefaultStatus);
      payee := params.payee;
      payer := params.payer;
      category := params.category;
      description := params.description;
      comments := params.comments;
      labels := params.labels;
      signedBy := params.signedBy;
      references := params.references;
      details := params.details;
    }

    /** `Transaction.from_object`: fails on a missing `date`, then on a
        missing `amount`; otherwise a new transaction holding what the
        object holds. */
    static method FromObject(raw: RawTransaction) returns (r: Result<Transaction, Error>)
      ensures r.Failure? <==> Decode(raw).Failure?
      ensures r.Failure? ==> r.error == Decode(raw).error
      ensures r.Success? ==> fresh(r.value) && r.value.View() == Decode(raw).value
    {
      if raw.date.None? {
        return Failure(MissingKey("date"));
      }
      if raw.amount.None? {
        return Failure(MissingKey("amount"));
      }
      var t := new Transaction(raw.date.value, raw.amount.value, raw.params);
      return Success(t);
    }

    method AddLabel(newLabel: string) returns (self: Transaction)
      modifies this`labels
      ensures labels == AppendOrCreate(old(labels), newLabel)
      ensures self == this
    {
      labels := AppendOrCreate(labels, newLabel);
      self := this;
    }

    method AddReference(reference: Reference) returns (self: Transaction)
      modifies this`references
      ensures references == AppendOrCreate(old(references), reference)
      ensures self == this
    {
      references := AppendOrCreate(references, reference);
      self := this;
    }

    method AddDetail(detail: Detail) returns (self: Transaction)
      modifies this`details
      ensures details == AppendOrCreate(old(details), detail)
      ensures self == this
    {
      details := AppendOrCreate(details, detail);
      self := this;
    }

    method AddSignee(signee: string) returns (self: Transaction)
      modifies this`signedBy
      ensures signedBy == AppendOrCreate(old(signedBy), signee)
      ensures self == this
    {
      signedBy := AppendOrCreate(signedBy, signee);
      self := this;
    }

    /** Overwrites the status with any string: no transition is checked. */
    method SetStatus(newStatus: string) returns (self: Transaction)
      modifies this`status
      ensures status == newStatus
      ensures self == this
    {
      status := newStatus;
      self := this;
    }
  }

  /** Two labels added one after the other to a transaction made without
      labels give `labels == [first, second]`, in call order. */
  method LabelScenario(date: string, amount: real, first: string, second: string) returns (labels: seq<string>)
    ensures labels == [first, second]
  {
    var t := new Transaction(date, amount, NoParams);
    var _ := t.AddLabel(first);
    var _ := t.AddLabel(second);
    AppendOrCreateTwice(None, first, second);
    labels := t.labels.value;
  }
}
