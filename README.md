# Ledger data model

A Dafny model of the ledger data model of `tools/ledger.py`. A ledger is a
document of financial transactions. It holds:

- metadata: `type`, `id`, `date`, `version`, `description` and `comments`;
- `authors`;
- `references`, each a name and a URI;
- `aliases`, a map from an alias to a full name;
- `transactions`, kept sorted by their `date` string by `add_transaction` and
  `from_object`; a list passed to the constructor is kept as given.

The model's structure:

- `Transaction` and `Ledger` are classes whose fields the operations update.
  A key the Python record does not hold is `None`.
- `Reference` and `Detail` are values.
- The "append, or create a one-element list" rule shared by every list key is
  one function, `Records.AppendOrCreate`.
- `add_transaction` sorts the whole list again after appending. The model
  writes that sort as `DateSort.SortByDate`, a stable insertion sort keyed on
  the date string, and proves it sorted, a permutation, stable and the only
  stable sort of its input.
- Dates are only compared, never parsed. Their order is the order Python's `<`
  puts on strings, `StringOrder.Less`.
- Rebuilding from a plain object (`from_object`) is modelled on input
  datatypes whose `Option` fields stand for keys that may be missing. The
  model returns a `Result` where the source raises `KeyError`.
- The generated UUID and the current time are parameters (`uuid`, `now`).

Modules, in dependency order:

- `Wrappers`: `Option`, `Result`, and `Traverse`, the loop that stops at the
  first failure.
- `StringOrder`: the string order.
- `Records`: references, details, transaction keyword arguments and plain
  transaction objects.
- `Transactions`: the `Transaction` class.
- `DateSort`: the stable sort by date.
- `Ledgers`: the `Ledger` class.

## Model

| member | source | states |
|---|---|---|
| Wrappers.TraverseAllSuccess | tools/ledger.py:153-157 | when every element of a loop's input is processed without an error, the loop's result is the list of the individual results, in order |
| Wrappers.TraverseFirstFailure | tools/ledger.py:153-157 | a loop that raises stops with the error of the first element that fails, whatever follows it |
| StringOrder.LessIrreflexive | tools/ledger.py:178 | no date string sorts before itself |
| StringOrder.LessTransitive | tools/ledger.py:178 | the string order on dates is transitive |
| StringOrder.LessTrichotomy | tools/ledger.py:178 | any two date strings are equal or one sorts before the other |
| StringOrder.LessAsymmetric | tools/ledger.py:178 | two date strings never each sort before the other |
| StringOrder.AtMostTotalOrder | tools/ledger.py:178 | "not after" is reflexive, total, antisymmetric and transitive: a total order the sort follows |
| StringOrder.LessAtFirstDifference | tools/ledger.py:178 | strings that agree up to a position are ordered by their characters at the first position where they differ |
| StringOrder.LessProperPrefix | tools/ledger.py:178 | a proper prefix sorts before every longer string it starts |
| Records.NewDetail | tools/ledger.py:33-40 | a detail keeps its item, unit price and quantity (1 by default); it holds a unit exactly when a non-empty one was given |
| Records.RebuildReference | tools/ledger.py:157 | a reference is rebuilt exactly when the object has `name` and `uri`; a missing `name` is reported before a missing `uri`; the rebuilt fields are the object's |
| Records.RebuildReferenceRoundTrip | tools/ledger.py:19-22 | a reference read back from its own two keys is the same reference, whatever other keys the object has |
| Records.AppendOrCreate | tools/ledger.py:81-111 | a list key is never left absent afterwards; it grows by one; the earlier elements are kept in order; the new element is last; an absent key becomes exactly `[x]` |
| Records.AppendOrCreateTwice | tools/ledger.py:81-87 | two appends in a row keep both elements in call order after the earlier ones; on an absent key they give `[a, b]` |
| Records.Initial | tools/ledger.py:52-67 | a new transaction has the given date and amount; `type` defaults to "cheque" and `status` to "pending"; every other key is present exactly when passed |
| Records.InitialWithoutParams | tools/ledger.py:52-59 | a transaction made from date and amount alone has type "cheque", status "pending" and no other key |
| Records.Decode | tools/ledger.py:74-79 | reading a plain object back fails with a missing `date` exactly when `date` is absent; it fails with a missing `amount` exactly when `date` is present and `amount` absent; otherwise it gives the transaction the constructor makes from the remaining keys |
| Records.DecodeToObject | tools/ledger.py:74-79 | reading a transaction back from its own keys gives the same transaction |
| Transactions.Transaction.constructor | tools/ledger.py:52-67 | the new transaction holds the record `Records.Initial` describes |
| Transactions.Transaction.FromObject | tools/ledger.py:74-79 | fails exactly when `Records.Decode` fails, with the same missing key; otherwise it returns a new transaction holding the decoded record |
| Transactions.Transaction.AddLabel | tools/ledger.py:81-87 | `labels` follows the append-or-create rule; no other field changes; returns the transaction itself |
| Transactions.Transaction.AddReference | tools/ledger.py:89-95 | `references` follows the append-or-create rule; no other field changes; returns the transaction itself |
| Transactions.Transaction.AddDetail | tools/ledger.py:97-104 | `details` follows the append-or-create rule; no other field changes; returns the transaction itself |
| Transactions.Transaction.AddSignee | tools/ledger.py:106-112 | `signed-by` follows the append-or-create rule; no other field changes; returns the transaction itself |
| Transactions.Transaction.SetStatus | tools/ledger.py:114-117 | `status` becomes the given string, with no transition check; no other field changes |
| Transactions.LabelScenario | tools/ledger.py:81-87 | two labels added to a transaction made without labels give exactly `[first, second]` |
| DateSort.InsertByDateMultiset | tools/ledger.py:175-178 | inserting one transaction adds it and loses nothing |
| DateSort.SortByDateSnoc | tools/ledger.py:178 | sorting one more transaction is inserting it into the sort of the others |
| DateSort.InsertBeforeLast | tools/ledger.py:178 | a transaction dated before the last one goes in front of it |
| DateSort.WithDateConcat | tools/ledger.py:178 | the transactions of one date in a concatenation are those of each part, in order |
| DateSort.WithDateMembers | tools/ledger.py:178 | a transaction is among those of date `d` exactly when it is in the list and has date `d` |
| DateSort.InsertByDateSorted | tools/ledger.py:178 | inserting into a list sorted by date keeps it sorted |
| DateSort.InsertByDateStable | tools/ledger.py:178 | an insertion puts the new transaction after every transaction of its own date; other dates' transactions keep their order |
| DateSort.SortByDateCorrect | tools/ledger.py:178 | the sort by date is sorted, keeps each date's transactions in their input order, and is a permutation of its input |
| DateSort.StableSortUnique | tools/ledger.py:178 | any two stable sorts by date of the same list are equal, so the model's sort is the one `list.sort` computes |
| DateSort.SortByDateSortedIdentity | tools/ledger.py:178 | sorting a list already sorted by date leaves it unchanged |
| DateSort.SortByDateResortAppend | tools/ledger.py:174-178 | sorting again after appending to a sorted list is sorting the whole input in the order it arrived |
| DateSort.AddTransactionSpec | tools/ledger.py:173-178 | after `add_transaction` the list is sorted; it is a permutation of the old list plus the new transaction; it grows by one; the new transaction comes after every transaction of its date; other dates are unchanged; on a sorted list it is one insertion |
| DateSort.SortTwoExample | tools/ledger.py:178 | a transaction added after one with a later date goes in front of it |
| DateSort.InsertIntoPair | tools/ledger.py:178 | a transaction dated between the two of a pair goes between them |
| DateSort.SortExample | tools/ledger.py:178 | three transactions given as latest, earliest, middle come out in date order |
| Ledgers.HeaderParams | tools/ledger.py:147-151 | every metadata key left in the object (id, date, version, description, comments, authors) is passed on unchanged to `Ledger(**l)`; the constructor gets no transactions and no references, because they were taken out of the object first |
| Ledgers.DecodeTransactionObjects | tools/ledger.py:153-154 | every transaction written out as its own keys reads back, giving the same records in the same order |
| Ledgers.RebuildReferenceObjects | tools/ledger.py:156-157 | every reference written out as `name` and `uri` is rebuilt, giving the same references in the same order |
| Ledgers.LoadLedgerObject | tools/ledger.py:147-162 | loading a ledger's plain object gives the constructor back the same metadata whatever the UUID and the time; every transaction and reference reads back unchanged and in order; the aliases are the ones written |
| Ledgers.InitialHeader | tools/ledger.py:124-134 | id, date and version fall back to "ledger--" plus the UUID, the current time and "1.0.0"; description, comments and authors are present exactly when passed |
| Ledgers.WithAlias | tools/ledger.py:188-193 | the alias maps to the full name; every other entry is kept; no other key is added; an absent map becomes exactly `{alias: fullName}` |
| Ledgers.WithAliasOverwrites | tools/ledger.py:188-193 | setting the same alias twice keeps only the second full name |
| Ledgers.SortedFromStep | tools/ledger.py:153-154 | `add_transaction` called for each transaction in turn, starting from none, leaves the stable sort of all of them in the order they were added |
| Ledgers.Ledger.constructor | tools/ledger.py:124-138 | `type` is "ledger"; the metadata are those `Ledgers.InitialHeader` gives; the transactions and references are the lists passed, if any; there are no aliases |
| Ledgers.Ledger.AddTransaction | tools/ledger.py:173-179 | the new list is the stable sort by date of the old list, or of nothing if absent, with the transaction appended; no other field changes (properties in `DateSort.AddTransactionSpec`) |
| Ledgers.Ledger.AddReference | tools/ledger.py:181-186 | `references` follows the append-or-create rule, with no sorting; no other field changes |
| Ledgers.Ledger.AddAlias | tools/ledger.py:188-193 | `aliases` becomes the map `Ledgers.WithAlias` describes; no other field changes |
| Ledgers.Ledger.AddTransactionFromObject | tools/ledger.py:154 | one turn of the loop: fails exactly when the plain transaction lacks `date` or `amount`; otherwise a new transaction holds the decoded record and the sorted list now includes it |
| Ledgers.Ledger.AddTransactionsFrom | tools/ledger.py:153-154 | fails exactly when some plain transaction cannot be read back, with the first such error; otherwise it makes one new transaction per input, in order, and leaves their stable sort by date |
| Ledgers.Ledger.AddReferencesFrom | tools/ledger.py:156-157 | fails exactly when some plain reference lacks `name` or `uri`, with the first such error; otherwise the rebuilt references are appended in input order |
| Ledgers.Ledger.Load | tools/ledger.py:147-162 | errors in transactions are reported before errors in references; on success the transactions are the stable date sort of the rebuilt ones and the references are the rebuilt ones in order (each list absent when the input had none); aliases are set exactly when a non-empty map was given |
| Ledgers.Ledger.FromObject | tools/ledger.py:143-162 | fails exactly when a transaction or a reference cannot be rebuilt, with the first error; otherwise a new ledger with the constructor's metadata, the transactions date-sorted whatever the input order, the rebuilt references, and the aliases only if non-empty |
| Ledgers.Reload | tools/ledger.py:143-162 | a ledger whose lists are non-empty when present and whose transactions are sorted by date, as the `add_*` operations leave it, is written out and loaded back as a new ledger with the same metadata, the same transaction records in the same order, the same references and the same aliases |
| Ledgers.AddThreeInOrder | tools/ledger.py:173-178 | three `add_transaction` calls with a later date, then the earliest, then the middle one leave them in date order |
| Ledgers.SortScenario | tools/ledger.py:173-179 | a new ledger given transactions dated 2020-03-01, 2020-01-15 and 2020-02-10 in that order lists them by date |
| Ledgers.AliasScenario | tools/ledger.py:188-193 | aliasing "JS" to "John Smith" and then to "Jane Stone" leaves the one entry `{"JS": "Jane Stone"}` |

## Left out

- JSON text: `__str__`, `from_json_string` and `from_json_file` are library calls and file I/O. Records are abstract values, and the key order an `OrderedDict` keeps for serialization is not modelled.
- `float()` coercion of `amount`, `unit-price` and `quantity` is floating point, and its conversion errors are not modelled. These values are `real`.
- `uuid.uuid4()` and `datetime.utcnow()` are nondeterministic. They are the parameters `uuid` and `now`.
- Log messages: each is built with `str.format` on a byte-string template before `logging.debug` is called, whatever the log level. Under Python 2, formatting a non-ASCII `unicode` argument into such a template raises `UnicodeEncodeError`. `json.loads` makes every string unicode. This error path is not modelled; apart from it, logging has side effects only.
- Records.RebuildReference, Ledgers.Ledger.AddReferencesFrom, Ledgers.Ledger.Load and Ledgers.Ledger.FromObject promise success for every plain reference with `name` and `uri`. The source raises `UnicodeEncodeError` instead when either is non-ASCII unicode, e.g. a name "Relevé" read from JSON, because `Reference.__init__` logs them (tools/ledger.py:23, reached from :157).
- Transactions.Transaction.AddLabel, Transactions.Transaction.AddReference, Transactions.Transaction.AddDetail and Transactions.Transaction.AddSignee return normally for every argument. With a non-ASCII unicode label, reference name, detail item or signee, the source raises `UnicodeEncodeError` while logging, after the list has already changed (tools/ledger.py:86, 94, 102-103, 111).
- `from_object` pops keys out of its input dict. The input is a value here, and its mutation is not modelled.
- Keys that a plain transaction or ledger object holds beyond the known ones are dropped by the datatypes. The one exception is a key named `self`: `Transaction(date, amount, **t)` (tools/ledger.py:79) and `Ledger(**l)` (:151) then raise `TypeError` for a second value of the argument `self`. That failure is not modelled. References and details nested inside a plain transaction are taken as already built.
- Ledgers.LedgerParams has no `aliases` argument. The source turns a dict given there into `list(dict)`, but `from_object` never passes one.
- In-place list identity is not modelled. The source appends to and sorts the very list object that other holders see, and it copies with `list(...)` in the constructors. The model replaces a field's value, so aliasing between holders is not captured.
- Ledgers.Ledger.AddTransactionsFrom requires a ledger without transactions, and Ledgers.Ledger.Load requires one without transactions, references or aliases. That is the state `from_object` runs its loops on, right after the constructor.
- Ledgers.Ledger.AddTransactionFromObject requires the list to be the sort of the transactions the loop added before. This is the loop invariant of `from_object`.
- Ledgers.Reload requires every present list and the alias map to be non-empty, and the transactions to be sorted by date. Outside that case the source does not give the same ledger back: an empty list or map is dropped on loading, and transactions passed to the constructor unsorted come back sorted.
- Ledgers.Ledger.FromObject: when it fails, the model does not describe the partially loaded ledger, because the source discards it.
- Every date, and every string a log message formats (reference names and URIs, labels, detail items, signees), is assumed to be a string of one kind, with the non-ASCII cases above excluded. The source runs under Python 2. There a date of another type, such as a number or `null`, sorts before every string instead of raising an error. A date given as a non-ASCII byte string, compared in the sort with the unicode dates read from JSON, raises `UnicodeDecodeError`. Neither behaviour is modelled.
- Details: `Records.NewDetail` never keeps an empty unit, but the `Detail` datatype admits one, and the transaction keys and `AddDetail` accept any detail. The model does not restrict details to those `NewDetail` builds.
- The command-line scripts (`create_ledger.py`, `add_transaction.py`, `add_alias.py`) parse arguments, read and write files and configure logging. Their one rule, sending `--paye` to `payer` or `payee` by the amount's sign, compares floats. None of it is modelled.
