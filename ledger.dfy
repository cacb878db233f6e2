/** The overall account ledger: metadata, authors, references, aliases and a
    list of transactions kept sorted by date after every insertion. */
module Ledgers {
  import opened Wrappers
  import opened StringOrder
  import opened Records
  import opened Transactions
  import opened DateSort

  const LedgerType: string := "ledger"
  const DefaultVersion: string := "1.0.0"
  const IdPrefix: string := "ledger--"

  /** The keyword arguments of `Ledger(**params)`; `None` means not passed.
      An `aliases` argument is not part of the model. */
  datatype LedgerParams = LedgerParams(
    id: Option<string>,
    date: Option<string>,
    version: Option<string>,
    description: Option<string>,
    comments: Option<string>,
    authors: Option<seq<string>>,
    transactions: Option<seq<Transaction>>,
    references: Option<seq<Reference>>)

  const NoLedgerParams: LedgerParams := LedgerParams(None, None, None, None, None, None, None, None)

  /** A ledger as a plain object, e.g. parsed from a JSON document. */
  datatype RawLedger = RawLedger(
    id: Option<string>,
    date: Option<string>,
    version: Option<string>,
    description: Option<string>,
    comments: Option<string>,
    authors: Option<seq<string>>,
    transactions: Option<seq<RawTransaction>>,
    references: Option<seq<map<string, string>>>,
    aliases: Option<map<string, string>>)

  /** What is left of a plain ledger object once its transactions,
      references and aliases are taken out: the constructor's arguments. */
  function HeaderParams(raw: RawLedger): (p: LedgerParams)
    ensures p.id == raw.id && p.date == raw.date && p.version == raw.version
    ensures p.description == raw.description && p.comments == raw.comments && p.authors == raw.authors
    ensures p.transactions.None? && p.references.None?
  {
    LedgerParams(raw.id, raw.date, raw.version, raw.description, raw.comments, raw.authors, None, None)
  }

  /** The metadata keys of a ledger. */
  datatype LedgerHeader = LedgerHeader(
    id: string,
    date: string,
    version: string,
    description: Option<string>,
    comments: Option<string>,
    authors: Option<seq<string>>)

  /** The metadata `Ledger(**params)` sets, with `uuid` the generated
      identifier and `now` the creation timestamp: the id, date and version
      fall back to their defaults, the other keys are present only when
      passed. */
  function InitialHeader(params: LedgerParams, uuid: string, now: string): (h: LedgerHeader)
    ensures params.id.None? ==> h.id == IdPrefix + uuid
    ensures params.id.Some? ==> h.id == params.id.value
    ensures params.date.None? ==> h.date == now
    ensures params.date.Some? ==> h.date == params.date.value
    ensures params.version.None? ==> h.version == DefaultVersion
    ensures params.version.Some? ==> h.version == params.version.value
    ensures h.description == params.description && h.comments == params.comments && h.authors == params.authors
  {
    LedgerHeader(params.id.GetOr(IdPrefix + uuid), params.date.GetOr(now), params.version.GetOr(DefaultVersion),
      params.description, params.comments, params.authors)
  }

  /** A ledger's metadata and list keys written out as a plain object: the
      metadata keys are all present, each transaction becomes its own keys
      and each reference its `name` and `uri`. */
  function LedgerObject(h: LedgerHeader, txs: Option<seq<TransactionRecord>>, refs: Option<seq<Reference>>,
                        aliases: Option<map<string, string>>): RawLedger
  {
    RawLedger(Some(h.id), Some(h.date), Some(h.version), h.description, h.comments, h.authors,
      if txs.None? then None else Some(TransactionObjects(txs.value)),
      if refs.None? then None else Some(ReferenceObjects(refs.value)),
      aliases)
  }

  function TransactionObjects(recs: seq<TransactionRecord>): (objs: seq<RawTransaction>)
    ensures |objs| == |recs|
    ensures forall k :: 0 <= k < |recs| ==> objs[k] == ToObject(recs[k])
  {
    seq(|recs|, k requires 0 <= k < |recs| => ToObject(recs[k]))
  }

  function ReferenceObjects(refs: seq<Reference>): (objs: seq<map<string, string>>)
    ensures |objs| == |refs|
    ensures forall k :: 0 <= k < |refs| ==> objs[k] == map["name" := refs[k].name, "uri" := refs[k].uri]
  {
    seq(|refs|, k requires 0 <= k < |refs| => map["name" := refs[k].name, "uri" := refs[k].uri])
  }

  /** Every transaction written out reads back, as the same records in the
      same order. */
  lemma DecodeTransactionObjects(recs: seq<TransactionRecord>)
    ensures Traverse(TransactionObjects(recs), Decode) == Success(recs)
  {
    forall k | 0 <= k < |recs| ensures Decode(TransactionObjects(recs)[k]) == Success(recs[k]) {
      DecodeToObject(recs[k]);
    }
    TraverseAllSuccess(TransactionObjects(recs), Decode, recs);
  }

  /** Every reference written out is rebuilt, as the same references in the
      same order. */
  lemma RebuildReferenceObjects(refs: seq<Reference>)
    ensures Traverse(ReferenceObjects(refs), RebuildReference) == Success(refs)
  {
    forall k | 0 <= k < |refs| ensures RebuildReference(ReferenceObjects(refs)[k]) == Success(refs[k]) {
      RebuildReferenceRoundTrip(refs[k], map[]);
      assert map[] + map["name" := refs[k].name, "uri" := refs[k].uri] == ReferenceObjects(refs)[k];
    }
    TraverseAllSuccess(ReferenceObjects(refs), RebuildReference, refs);
  }

  /** Loading a ledger's plain object: the constructor gets back the same
      metadata whatever the generated defaults would have been, every
      transaction and reference reads back unchanged and in order, and the
      aliases are the ones written. */
  lemma LoadLedgerObject(h: LedgerHeader, txs: Option<seq<TransactionRecord>>, refs: Option<seq<Reference>>,
                         aliases: Option<map<string, string>>, uuid: string, now: string)
    ensures InitialHeader(HeaderParams(LedgerObject(h, txs, refs, aliases)), uuid, now) == h
    ensures Traverse(Elements(LedgerObject(h, txs, refs, aliases).transactions), Decode) == Success(Elements(txs))
    ensures Traverse(Elements(LedgerObject(h, txs, refs, aliases).references), RebuildReference) == Success(Elements(refs))
    ensures LedgerObject(h, txs, refs, aliases).aliases == aliases
  {
    DecodeTransactionObjects(Elements(txs));
    RebuildReferenceObjects(Elements(refs));
  }

  /** The records the transactions hold now, in list order. */
  function Views(ts: seq<Transaction>): (r: seq<TransactionRecord>)
    reads ts
    ensures |r| == |ts| && forall k :: 0 <= k < |ts| ==> r[k] == ts[k].View()
  {
    if ts == [] then [] else Views(ts[..|ts| - 1]) + [ts[|ts| - 1].View()]
  }

  /** The alias map after `alias` is set to `fullName`: that entry is set or
      overwritten, every other entry is kept, and an absent map becomes the
      map of that one entry. */
  function WithAlias(aliases: Option<map<string, string>>, alias: string, fullName: string): (m: map<string, string>)
    ensures alias in m && m[alias] == fullName
    ensures m.Keys == aliases.GetOr(map[]).Keys + {alias}
    ensures forall k :: k in m && k != alias ==> m[k] == aliases.value[k]
    ensures aliases.None? ==> m == map[alias := fullName]
  {
    match aliases
    case None => map[alias := fullName]
    case Some(current) => current[alias := fullName]
  }

  /** Setting an alias twice keeps only the last full name. */
  lemma WithAliasOverwrites(aliases: Option<map<string, string>>, alias: string, first: string, second: string)
    ensures WithAlias(Some(WithAlias(aliases, alias, first)), alias, second) == WithAlias(aliases, alias, second)
  {
  }

  /** `ts` is what the transactions key holds after `add_transaction` was
      called with each of `added` in turn on a ledger without transactions:
      absent when nothing was added, else the stable sort of `added`. */
  ghost predicate SortedFrom(ts: Option<seq<Transaction>>, added: seq<Transaction>)
  {
    ts == if added == [] then None else Some(SortByDate(added))
  }

  /** One more `add_transaction` keeps that relation: sorting the already
      sorted list with the new transaction appended is sorting everything
      in the order it was added. */
  lemma SortedFromStep(ts: Option<seq<Transaction>>, added: seq<Transaction>, t: Transaction)
    requires SortedFrom(ts, added)
    ensures SortedFrom(Some(SortByDate(Elements(ts) + [t])), added + [t])
  {
    SortByDateResortAppend(added, t);
    assert added == [] ==> [] + [t] == [t];
  }

  class Ledger {
    /** The "type" key, always "ledger". */
    const kind: string := LedgerType
    var id: string
    var date: string
    var version: string
    var description: Option<string>
    var comments: Option<string>
    var authors: Option<seq<string>>
    var transactions: Option<seq<Transaction>>
    var references: Option<seq<Reference>>
    var aliases: Option<map<string, string>>

    /** The metadata keys this ledger holds now. */
    function Header(): LedgerHeader
      reads this`id, this`date, this`version, this`description, this`comments, this`authors
    {
      LedgerHeader(id, date, version, description, comments, authors)
    }

    /** The records of the transactions this ledger holds now, in order. */
    function Records(): Option<seq<TransactionRecord>>
      reads this, Elements(transactions)
    {
      if transactions.None? then None else Some(Views(transactions.value))
    }

    /** This ledger as a plain object, every key it holds. */
    function ToObject(): RawLedger
      reads this, Elements(transactions)
    {
      LedgerObject(Header(), Records(), references, aliases)
    }

    /** `Ledger(**params)`. The list keys are taken as given: transactions
        passed here are not sorted. */
    constructor (params: LedgerParams, uuid: string, now: string)
      ensures Header() == InitialHeader(params, uuid, now)
      ensures transactions == params.transactions && references == params.references && aliases == None
    {
      id := params.id.GetOr(IdPrefix + uuid);
      date := params.date.GetOr(now);
      version := params.version.GetOr(DefaultVersion);
      description := params.description;
      comments := params.comments;
      authors := params.authors;
      transactions := params.transactions;
      references := params.references;
      aliases := None;
    }

    /** `add_transaction`: appends `t`, or creates the list, then sorts the
        whole list by date; DateSort.AddTransactionSpec states what that
        promises. */
    method AddTransaction(t: Transaction) returns (self: Ledger)
      modifies this`transactions
      ensures transactions == Some(SortByDate(Elements(old(transactions)) + [t]))
      ensures self == this
    {
      var appended := AppendOrCreate(transactions, t).value;
      assert appended == Elements(transactions) + [t];
      transactions := Some(SortByDate(appended));
      self := this;
    }

    /** `add_reference`: appends, or creates the list; no sorting. */
    method AddReference(reference: Reference) returns (self: Ledger)
      modifies this`references
      ensures references == AppendOrCreate(old(references), reference)
      ensures self == this
    {
      references := AppendOrCreate(references, reference);
      self := this;
    }

    /** `add_alias`: sets or overwrites one entry, creating the map if absent. */
    method AddAlias(alias: string, fullName: string) returns (self: Ledger)
      modifies this`aliases
      ensures aliases == Some(WithAlias(old(aliases), alias, fullName))
      ensures self == this
    {
      aliases := Some(WithAlias(aliases, alias, fullName));
      self := this;
    }

    /** One turn of the first loop of `Ledger.from_object`: reads a plain
        transaction back and, when it has `date` and `amount`, adds it
        through `add_transaction`. `added` are the transactions this loop
        added before. */
    method AddTransactionFromObject(raw: RawTransaction, ghost added: seq<Transaction>) returns (r: Result<Transaction, Error>)
      requires SortedFrom(transactions, added)
      modifies this`transactions
      ensures r.Failure? <==> Decode(raw).Failure?
      ensures r.Failure? ==> r.error == Decode(raw).error
      ensures r.Success? ==>
        fresh(r.value) && Success(r.value.View()) == Decode(raw) && SortedFrom(transactions, added + [r.value])
    {
      r := Transaction.FromObject(raw);
      if r.Success? {
        SortedFromStep(transactions, added, r.value);
        var _ := AddTransaction(r.value);
      }
    }

    /** The first loop of `Ledger.from_object`, on the ledger it has just
        made: reads each plain transaction back and adds it, stopping at the
        first one without `date` or `amount`. `built` are the transactions
        made, in input order. */
    method AddTransactionsFrom(txs: seq<RawTransaction>) returns (failure: Option<Error>, ghost built: seq<Transaction>)
      requires transactions == None
      modifies this`transactions
      ensures failure.Some? <==> Traverse(txs, Decode).Failure?
      ensures failure.Some? ==> failure.value == Traverse(txs, Decode).error
      ensures failure.None? ==>
        && |built| == |txs|
        && (forall k :: 0 <= k < |txs| ==> fresh(built[k]) && Success(built[k].View()) == Decode(txs[k]))
        && SortedFrom(transactions, built)
    {
      built := [];
      ghost var records: seq<TransactionRecord> := [];
      var i := 0;
      while i < |txs|
        invariant 0 <= i <= |txs| && |built| == i && |records| == i
        invariant forall k :: 0 <= k < i ==> fresh(built[k])
        invariant forall k :: 0 <= k < i ==> Success(built[k].View()) == Decode(txs[k])
        invariant forall k :: 0 <= k < i ==> Decode(txs[k]) == Success(records[k])
        invariant SortedFrom(transactions, built)
      {
        var t := AddTransactionFromObject(txs[i], built);
        if t.Failure? {
          TraverseFirstFailure(txs, Decode, i);
          return Some(t.error), built;
        }
        records := records + [Decode(txs[i]).value];
        built := built + [t.value];
        i := i + 1;
      }
      TraverseAllSuccess(txs, Decode, records);
      failure := None;
    }

    /** The second loop of `Ledger.from_object`: rebuilds each plain
        reference from `name` and `uri` and adds it through
        `add_reference`, stopping at the first one missing either key. */
    method AddReferencesFrom(refs: seq<map<string, string>>) returns (failure: Option<Error>)
      modifies this`references
      ensures failure.Some? <==> Traverse(refs, RebuildReference).Failure?
      ensures failure.Some? ==> failure.value == Traverse(refs, RebuildReference).error
      ensures failure.None? ==>
        references == if refs == [] then old(references)
                      else Some(Elements(old(references)) + Traverse(refs, RebuildReference).value)
    {
      ghost var rebuilt: seq<Reference> := [];
      var j := 0;
      while j < |refs|
        invariant 0 <= j <= |refs| && |rebuilt| == j
        invariant forall k :: 0 <= k < j ==> RebuildReference(refs[k]) == Success(rebuilt[k])
        invariant references == if j == 0 then old(references) else Some(Elements(old(references)) + rebuilt)
      {
        var reference := RebuildReference(refs[j]);
        if reference.Failure? {
          TraverseFirstFailure(refs, RebuildReference, j);
          return Some(reference.error);
        }
        var _ := AddReference(reference.value);
        assert references.value == Elements(old(references)) + (rebuilt + [reference.value]);
        rebuilt := rebuilt + [reference.value];
        j := j + 1;
      }
      TraverseAllSuccess(refs, RebuildReference, rebuilt);
      failure := None;
    }

    /** What `Ledger.from_object` does once it has made the ledger from the
        metadata keys: adds every transaction through `add_transaction` and
        every reference, rebuilt from `name` and `uri`, through
        `add_reference`, then sets the aliases only when there are some.
        Fails at the first transaction without `date` or `amount`, else at
        the first reference without `name` or `uri`. `built` are the
        transactions made, in input order. */
    method Load(raw: RawLedger) returns (failure: Option<Error>, ghost built: seq<Transaction>)
      requires transactions == None && references == None && aliases == None
      modifies this`transactions, this`references, this`aliases
      ensures failure.Some? <==>
        Traverse(Elements(raw.transactions), Decode).Failure? || Traverse(Elements(raw.references), RebuildReference).Failure?
      ensures Traverse(Elements(raw.transactions), Decode).Failure? ==>
        failure == Some(Traverse(Elements(raw.transactions), Decode).error)
      ensures Traverse(Elements(raw.transactions), Decode).Success? && Traverse(Elements(raw.references), RebuildReference).Failure? ==>
        failure == Some(Traverse(Elements(raw.references), RebuildReference).error)
      ensures failure.None? ==>
        && |built| == |Elements(raw.transactions)|
        && (forall k :: 0 <= k < |built| ==> fresh(built[k]) && Success(built[k].View()) == Decode(Elements(raw.transactions)[k]))
        && transactions == (if Elements(raw.transactions) == [] then None else Some(SortByDate(built)))
        && references == (if Elements(raw.references) == [] then None else Some(Traverse(raw.references.value, RebuildReference).value))
        && aliases == (if raw.aliases.Some? && raw.aliases.value != map[] then raw.aliases else None)
    {
      failure, built := AddTransactionsFrom(Elements(raw.transactions));
      if failure.Some? {
        return;
      }
      failure := AddReferencesFrom(Elements(raw.references));
      if failure.Some? {
        return;
      }
      assert [] + Traverse(Elements(raw.references), RebuildReference).value == Traverse(Elements(raw.references), RebuildReference).value;
      if raw.aliases.Some? && raw.aliases.value != map[] {
        aliases := raw.aliases;
      }
    }

    /** `Ledger.from_object`: the ledger made from the metadata keys, then
        loaded as Load says, or the error that stopped the load. */
    static method FromObject(raw: RawLedger, uuid: string, now: string)
      returns (r: Result<Ledger, Error>, ghost built: seq<Transaction>)
      ensures r.Failure? <==>
        Traverse(Elements(raw.transactions), Decode).Failure? || Traverse(Elements(raw.references), RebuildReference).Failure?
      ensures Traverse(Elements(raw.transactions), Decode).Failure? ==>
        r == Failure(Traverse(Elements(raw.transactions), Decode).error)
      ensures Traverse(Elements(raw.transactions), Decode).Success? && Traverse(Elements(raw.references), RebuildReference).Failure? ==>
        r == Failure(Traverse(Elements(raw.references), RebuildReference).error)
      ensures r.Success? ==>
        && fresh(r.value)
        && r.value.Header() == InitialHeader(HeaderParams(raw), uuid, now)
        && |built| == |Elements(raw.transactions)|
        && (forall k :: 0 <= k < |built| ==> fresh(built[k]) && Success(built[k].View()) == Decode(Elements(raw.transactions)[k]))
        && r.value.transactions == (if Elements(raw.transactions) == [] then None else Some(SortByDate(built)))
        && r.value.references == (if Elements(raw.references) == [] then None else Some(Traverse(raw.references.value, RebuildReference).value))
        && r.value.aliases == (if raw.aliases.Some? && raw.aliases.value != map[] then raw.aliases else None)
    {
      var ledger := new Ledger(HeaderParams(raw), uuid, now);
      var failure;
      failure, built := ledger.Load(raw);
      if failure.Some? {
        return Failure(failure.value), built;
      }
      r := Success(ledger);
    }
  }

  /** Same dates in the same positions: a list sorted by date stays sorted. */
  lemma SortedBySameDates(s: seq<Transaction>, t: seq<Transaction>)
    requires SortedByDate(s) && |t| == |s|
    requires forall k :: 0 <= k < |s| ==> t[k].date == s[k].date
    ensures SortedByDate(t)
  {
    forall i, j | 0 <= i < j < |t| ensures AtMost(t[i].date, t[j].date) {
      assert AtMost(s[i].date, s[j].date);
    }
  }

  /** A ledger whose lists are non-empty when present and whose
      transactions are sorted by date, as the `add_*` operations leave them,
      written out as a plain object and loaded back: a new ledger with the
      same metadata, transactions holding the same records in the same
      order, the same references and the same aliases. */
  method Reload(ledger: Ledger, uuid: string, now: string) returns (copy: Ledger)
    requires ledger.transactions.Some? ==> ledger.transactions.value != [] && SortedByDate(ledger.transactions.value)
    requires ledger.references.Some? ==> ledger.references.value != []
    requires ledger.aliases.Some? ==> ledger.aliases.value != map[]
    ensures fresh(copy)
    ensures copy.Header() == ledger.Header()
    ensures copy.Records() == ledger.Records()
    ensures copy.references == ledger.references && copy.aliases == ledger.aliases
  {
    var raw := ledger.ToObject();
    LoadLedgerObject(ledger.Header(), ledger.Records(), ledger.references, ledger.aliases, uuid, now);
    var r, built := Ledger.FromObject(raw, uuid, now);
    copy := r.value;
    if ledger.transactions.Some? {
      var ts := ledger.transactions.value;
      var recs := Views(ts);
      forall k | 0 <= k < |ts| ensures built[k].View() == ts[k].View() {
        DecodeToObject(recs[k]);
      }
      SortedBySameDates(ts, built);
      SortByDateSortedIdentity(built);
      assert Views(built) == recs;
    }
  }

  lemma ExampleDatesOrdered()
    ensures Less("2020-01-15", "2020-02-10") && Less("2020-02-10", "2020-03-01")
  {
    LessAtFirstDifference("2020-01-15", "2020-02-10", 6);
    LessAtFirstDifference("2020-02-10", "2020-03-01", 6);
  }

  /** Three `add_transaction` calls on a ledger without transactions: a
      later date, then an earlier one, then one in between. */
  lemma AddThreeInOrder(march: Transaction, january: Transaction, february: Transaction)
    requires Less(january.date, february.date) && Less(february.date, march.date)
    ensures var once := SortByDate(Elements(None) + [march]);
            var twice := SortByDate(once + [january]);
            SortByDate(twice + [february]) == [january, february, march]
  {
    assert Elements<Transaction>(None) + [march] == [march];
    SortByDateResortAppend([march], january);
    assert [march] + [january] == [march, january];
    SortByDateResortAppend([march, january], february);
    assert [march, january] + [february] == [march, january, february];
    SortExample(march, january, february);
  }

  /** The same three transactions added in that order to a new ledger end
      up in date order. */
  method SortScenario(uuid: string, now: string) returns (dates: seq<string>)
    ensures dates == ["2020-01-15", "2020-02-10", "2020-03-01"]
  {
    var ledger := new Ledger(NoLedgerParams, uuid, now);
    var march := new Transaction("2020-03-01", 10.0, NoParams);
    var january := new Transaction("2020-01-15", -2.5, NoParams);
    var february := new Transaction("2020-02-10", 4.0, NoParams);
    ExampleDatesOrdered();
    AddThreeInOrder(march, january, february);
    var _ := ledger.AddTransaction(march);
    var _ := ledger.AddTransaction(january);
    var _ := ledger.AddTransaction(february);
    var ordered := ledger.transactions.value;
    assert ordered == [january, february, march];
    dates := [ordered[0].date, ordered[1].date, ordered[2].date];
  }

  /** Aliasing "JS" to "John Smith" and then to "Jane Stone" leaves one
      entry, the second. */
  method AliasScenario(uuid: string, now: string) returns (aliases: map<string, string>)
    ensures aliases == map["JS" := "Jane Stone"]
  {
    var ledger := new Ledger(NoLedgerParams, uuid, now);
    var _ := ledger.AddAlias("JS", "John Smith");
    var _ := ledger.AddAlias("JS", "Jane Stone");
    WithAliasOverwrites(None, "JS", "John Smith", "Jane Stone");
    aliases := ledger.aliases.value;
  }
}
