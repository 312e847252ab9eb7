/** The reading of an event body as `key=value` items separated by `|`, as the mapping
    generator's Guava splitter `Splitter.on("|").withKeyValueSeparator(Splitter.on("=").limit(2))`
    does it. */
module EventParser {
  import opened Wrappers
  import opened Failures
  import opened Text

  const ItemSeparator: char := '|'
  const KeyValueSeparator: char := '='

  /** A parsed body: its key/value pairs in the order of the body (Guava returns a
      LinkedHashMap). */
  type Entries = seq<(string, string)>

  predicate HasKey(e: Entries, k: string)
  {
    exists i :: 0 <= i < |e| && e[i].0 == k
  }

  predicate DistinctKeys(e: Entries)
  {
    forall i, j :: 0 <= i < j < |e| ==> e[i].0 != e[j].0
  }

  /** The map view of the entries. */
  function ToMap(e: Entries): map<string, string>
  {
    if e == [] then map[] else ToMap(e[..|e| - 1])[e[|e| - 1].0 := e[|e| - 1].1]
  }

  /** Guava's map splitter over the items, the entries read so far in `acc`. Each item is split
      at its first '='. A key already read is refused before an item without '=' is, as Guava
      checks them in that order. */
  function ParseItems(items: seq<string>, acc: Entries): (r: Result<Entries, Failure>)
    requires DistinctKeys(acc)
    decreases |items|
  {
    if items == [] then Ok(acc)
    else
      var item := items[0];
      match SplitOnce(item, KeyValueSeparator)
      case None =>
        if HasKey(acc, item) then Err(DuplicateKey(item)) else Err(InvalidEntry(item))
      case Some(kv) =>
        if HasKey(acc, kv.0) then Err(DuplicateKey(kv.0))
        else ParseItems(items[1..], acc + [kv])
  }

  /** The body of one event parsed into its entries. */
  function ParseBody(body: string): Result<Entries, Failure>
  {
    ParseItems(Split(body, ItemSeparator), [])
  }

  /** Every item carries a '='. */
  predicate WellFormed(items: seq<string>)
  {
    forall i :: 0 <= i < |items| ==> KeyValueSeparator in items[i]
  }

  /** Each item split at its first '=': the key before it, the value (which may itself hold
      '=' and may be empty) after it. */
  function EntriesOf(items: seq<string>): (e: Entries)
    requires WellFormed(items)
    ensures |e| == |items|
    decreases |items|
  {
    if items == [] then []
    else
      assert WellFormed(items[1..]) by {
        forall i | 0 <= i < |items| - 1 ensures KeyValueSeparator in items[1..][i] {
          assert items[1..][i] == items[i + 1];
        }
      }
      [SplitOnce(items[0], KeyValueSeparator).value] + EntriesOf(items[1..])
  }

  /** Entry i is item i split at its first '='. */
  lemma {:induction false} EntriesOfAt(items: seq<string>, i: nat)
    requires WellFormed(items) && i < |items|
    ensures EntriesOf(items)[i] == SplitOnce(items[i], KeyValueSeparator).value
    decreases |items|
  {
    if i > 0 {
      EntriesOfAt(items[1..], i - 1);
    }
  }

  lemma WellFormedCons(items: seq<string>)
    requires |items| >= 1
    ensures WellFormed(items) <==> KeyValueSeparator in items[0] && WellFormed(items[1..])
  {
    if KeyValueSeparator in items[0] && WellFormed(items[1..]) {
      forall i | 0 <= i < |items| ensures KeyValueSeparator in items[i] {
        if i > 0 { assert items[i] == items[1..][i - 1]; }
      }
    }
  }

  lemma RepeatedKey(acc: Entries, rest: Entries, i: nat)
    requires i < |acc| && |rest| >= 1 && acc[i].0 == rest[0].0
    ensures !DistinctKeys(acc + rest)
  {
    assert (acc + rest)[i] == acc[i];
    assert (acc + rest)[|acc|] == rest[0];
  }

  lemma AppendFreshKey(acc: Entries, kv: (string, string))
    requires DistinctKeys(acc) && !HasKey(acc, kv.0)
    ensures DistinctKeys(acc + [kv])
  {
    forall i, j | 0 <= i < j < |acc| + 1 ensures (acc + [kv])[i].0 != (acc + [kv])[j].0 {
      if j == |acc| {
        assert (acc + [kv])[i] == acc[i];
      }
    }
  }

  /** The splitter succeeds exactly when every item has a '=' and no key repeats, and then it
      yields the items split at their first '=', in order. */
  lemma {:induction false} ParseItemsSpec(items: seq<string>, acc: Entries)
    requires DistinctKeys(acc)
    ensures ParseItems(items, acc).Ok? <==> WellFormed(items) && DistinctKeys(acc + EntriesOf(items))
    ensures ParseItems(items, acc).Ok? ==> ParseItems(items, acc).value == acc + EntriesOf(items)
    decreases |items|
  {
    if items == [] {
      assert acc + EntriesOf(items) == acc;
    } else {
      WellFormedCons(items);
      match SplitOnce(items[0], KeyValueSeparator)
      case None =>
      case Some(kv) =>
        if HasKey(acc, kv.0) {
          if WellFormed(items) {
            var i :| 0 <= i < |acc| && acc[i].0 == kv.0;
            RepeatedKey(acc, EntriesOf(items), i);
          }
        } else {
          var acc' := acc + [kv];
          AppendFreshKey(acc, kv);
          assert ParseItems(items, acc) == ParseItems(items[1..], acc');
          ParseItemsSpec(items[1..], acc');
          if WellFormed(items) {
            assert acc + EntriesOf(items) == acc' + EntriesOf(items[1..]);
          }
        }
    }
  }

  /** The body-level statement of ParseItemsSpec. */
  lemma ParseBodySpec(body: string)
    ensures ParseBody(body).Ok? <==>
              WellFormed(Split(body, ItemSeparator)) && DistinctKeys(EntriesOf(Split(body, ItemSeparator)))
    ensures ParseBody(body).Ok? ==> ParseBody(body).value == EntriesOf(Split(body, ItemSeparator))
  {
    var items := Split(body, ItemSeparator);
    ParseItemsSpec(items, []);
    if WellFormed(items) {
      assert [] + EntriesOf(items) == EntriesOf(items);
    }
  }

  /** The text a body with these entries has: `k=v` items joined by '|'. */
  function Serialize(e: Entries): string
    requires |e| >= 1
  {
    Join(seq(|e|, i requires 0 <= i < |e| => e[i].0 + [KeyValueSeparator] + e[i].1), ItemSeparator)
  }

  /** Entries with distinct keys free of '|' and '=' and values free of '|' survive writing
      them out and parsing them back, empty values and values holding '=' included. */
  lemma ParseSerialize(e: Entries)
    requires |e| >= 1
    requires DistinctKeys(e)
    requires forall i :: 0 <= i < |e| ==> ItemSeparator !in e[i].0 && KeyValueSeparator !in e[i].0
    requires forall i :: 0 <= i < |e| ==> ItemSeparator !in e[i].1
    ensures ParseBody(Serialize(e)) == Ok(e)
  {
    var items := seq(|e|, i requires 0 <= i < |e| => e[i].0 + [KeyValueSeparator] + e[i].1);
    SplitJoin(items, ItemSeparator);
    forall i | 0 <= i < |e| ensures SplitOnce(items[i], KeyValueSeparator) == Some(e[i]) {
      SplitOnceAt(e[i].0, KeyValueSeparator, e[i].1);
    }
    assert WellFormed(items);
    forall i | 0 <= i < |e| ensures EntriesOf(items)[i] == e[i] {
      EntriesOfAt(items, i);
    }
    assert EntriesOf(items) == e;
    ParseBodySpec(Serialize(e));
  }

  /** An empty body is a single empty item without '=', which the splitter refuses. */
  lemma EmptyBodyRejected()
    ensures ParseBody("") == Err(InvalidEntry(""))
  {
    assert Split("", ItemSeparator) == [""];
    assert !HasKey([], "");
  }
}
