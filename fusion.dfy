/**
 * The merge-and-dedupe step of hybrid retrieval: dense candidates, then
 * lexical ones, are written into a Python dict keyed by candidate id, and
 * the dict's values become the reranker's input.
 *
 * A Python dict remembers insertion order: writing to a new key appends it,
 * writing to an existing key replaces its value in place. `OrderedDict`
 * models that, and `Merged` is the dict after every write.
 */
module Fusion {
  import opened Seqs

  /** A retrieval candidate `{"id": id, "text": text}`. */
  datatype Candidate = Candidate(id: string, text: string)

  /** A dict from ids to texts: its keys in insertion order and its entries. */
  datatype OrderedDict = OrderedDict(keys: seq<string>, entries: map<string, string>)

  predicate Distinct(s: seq<string>) {
    forall i, j | 0 <= i < j < |s| :: s[i] != s[j]
  }

  /** Each key is listed once, and the listed keys are exactly the entries' keys. */
  ghost predicate Valid(d: OrderedDict) {
    && Distinct(d.keys)
    && (forall k | k in d.keys :: k in d.entries)
    && (forall k | k in d.entries :: k in d.keys)
  }

  /** The set of ids among the candidates. */
  function Ids(items: seq<Candidate>): set<string> {
    set c | c in items :: c.id
  }

  /** `d[k] = v`: the entry for `k` becomes `v`, every other entry stays, the
      keys already present keep their places, and a new key comes last. */
  function Put(d: OrderedDict, k: string, v: string): (r: OrderedDict)
    requires Valid(d)
    ensures Valid(r)
    ensures r.entries == d.entries[k := v]
    ensures r.keys == if k in d.entries then d.keys else d.keys + [k]
  {
    if k in d.entries then OrderedDict(d.keys, d.entries[k := v])
    else OrderedDict(d.keys + [k], d.entries[k := v])
  }

  /** `list(d.values())`: one value per key, in key order. */
  function Values(d: OrderedDict): (r: seq<string>)
    requires Valid(d)
    ensures |r| == |d.keys|
    ensures forall p | 0 <= p < |r| :: r[p] == d.entries[d.keys[p]]
  {
    seq(|d.keys|, p requires 0 <= p < |d.keys| => d.entries[d.keys[p]])
  }

  /** The dict after `merged[c.id] = c.text` for every candidate, in order. */
  function Merged(items: seq<Candidate>): (d: OrderedDict)
    ensures Valid(d)
    ensures d.entries.Keys == Ids(items)
    decreases |items|
  {
    if items == [] then OrderedDict([], map[])
    else
      var init, last := items[..|items| - 1], items[|items| - 1];
      SplitLast(items);
      assert Ids(items) == Ids(init) + {last.id};
      Put(Merged(init), last.id, last.text)
  }

  /** The position of the first candidate carrying `id`. */
  ghost function FirstIndex(items: seq<Candidate>, id: string): (n: nat)
    requires id in Ids(items)
    ensures n < |items| && items[n].id == id
    ensures forall k | 0 <= k < n :: items[k].id != id
    decreases |items|
  {
    var init := items[..|items| - 1];
    SplitLast(items);
    if id in Ids(init) then FirstIndex(init, id) else |items| - 1
  }

  lemma {:induction false} DistinctCardinality(s: seq<string>)
    requires Distinct(s)
    ensures |set k | k in s| == |s|
  {
    if s != [] {
      var init := s[..|s| - 1];
      SplitLast(s);
      DistinctCardinality(init);
      assert (set k | k in s) == (set k | k in init) + {s[|s| - 1]};
    }
  }

  /** Each id contributes exactly one candidate: duplicates, within a list or
      across the two lists, collapse to a single entry. */
  lemma {:induction false} MergedSize(items: seq<Candidate>)
    ensures |Values(Merged(items))| == |Ids(items)|
    ensures Values(Merged(items)) == [] <==> items == []
  {
    var d := Merged(items);
    DistinctCardinality(d.keys);
    assert (set k | k in d.keys) == d.entries.Keys;
    if items != [] {
      assert items[0].id in Ids(items);
    }
  }

  /** Last writer wins: the entry for an id is the text of its last occurrence. */
  lemma {:induction false} LastWriterWins(items: seq<Candidate>, j: nat)
    requires j < |items|
    requires forall k | j < k < |items| :: items[k].id != items[j].id
    ensures Merged(items).entries[items[j].id] == items[j].text
    decreases |items|
  {
    if j < |items| - 1 {
      var init := items[..|items| - 1];
      assert init[j] == items[j];
      LastWriterWins(init, j);
    }
  }

  /** The keys, hence the values, come in the order of each id's first occurrence:
      overwriting a key does not move it. */
  lemma {:induction false} KeysInFirstOccurrenceOrder(items: seq<Candidate>)
    ensures forall p, q | 0 <= p < q < |Merged(items).keys| ::
      FirstIndex(items, Merged(items).keys[p]) < FirstIndex(items, Merged(items).keys[q])
    decreases |items|
  {
    if items != [] {
      var init, last := items[..|items| - 1], items[|items| - 1];
      var d0, d := Merged(init), Merged(items);
      KeysInFirstOccurrenceOrder(init);
      assert d == Put(d0, last.id, last.text);
      forall p, q | 0 <= p < q < |d.keys| ensures FirstIndex(items, d.keys[p]) < FirstIndex(items, d.keys[q]) {
        assert d.keys[p] == d0.keys[p] && d.keys[p] in Ids(init);
        assert FirstIndex(items, d.keys[p]) == FirstIndex(init, d.keys[p]);
        if q < |d0.keys| {
          assert d.keys[q] == d0.keys[q] && d.keys[q] in Ids(init);
          assert FirstIndex(items, d.keys[q]) == FirstIndex(init, d.keys[q]);
        } else {
          assert d.keys[q] == last.id && last.id !in Ids(init);
          assert FirstIndex(items, d.keys[q]) == |items| - 1;
        }
      }
    }
  }

  /** Writing one more candidate is one more `Put`. */
  lemma {:induction false} MergedSnoc(items: seq<Candidate>, c: Candidate)
    ensures Merged(items + [c]) == Put(Merged(items), c.id, c.text)
  {
    SnocPrefix(items, c);
  }

  lemma UpdateUnion(x: map<string, string>, y: map<string, string>, k: string, v: string)
    ensures (x + y)[k := v] == x + y[k := v]
  {
  }

  /** Merging `a + b` is merging `a`, then overwriting with the entries of `b`. */
  lemma {:induction false} MergedAppend(a: seq<Candidate>, b: seq<Candidate>)
    ensures Merged(a + b).entries == Merged(a).entries + Merged(b).entries
    decreases |b|
  {
    if b == [] {
      AppendEmpty(a);
    } else {
      var init, last := b[..|b| - 1], b[|b| - 1];
      SplitLast(b);
      AppendAssociative(a, init, [last]);
      MergedAppend(a, init);
      MergedSnoc(a + init, last);
      MergedSnoc(init, last);
      var x, y := Merged(a).entries, Merged(init).entries;
      UpdateUnion(x, y, last.id, last.text);
    }
  }

  /** On an id both lists carry, the lexical text replaces the dense one; an id
      only the dense list carries keeps its dense text. */
  lemma {:induction false} LexicalOverridesDense(dense: seq<Candidate>, lexical: seq<Candidate>, id: string)
    requires id in Ids(dense + lexical)
    ensures id in Ids(lexical) ==> Merged(dense + lexical).entries[id] == Merged(lexical).entries[id]
    ensures id !in Ids(lexical) ==> Merged(dense + lexical).entries[id] == Merged(dense).entries[id]
  {
    MergedAppend(dense, lexical);
  }

  /**
   * The loop of the source: each candidate is written into `merged`, a new id
   * being appended to the key order, and the values are then listed in that order.
   */
  method MergeAndDedupe(items: seq<Candidate>) returns (candidates: seq<string>)
    ensures candidates == Values(Merged(items))
  {
    var keys: seq<string> := [];
    var merged: map<string, string> := map[];
    for i := 0 to |items|
      invariant OrderedDict(keys, merged) == Merged(items[..i])
    {
      PrefixStep(items, i);
      var item := items[i];
      if item.id !in merged {
        keys := keys + [item.id];
      }
      merged := merged[item.id := item.text];
    }
    PrefixFull(items);
    candidates := [];
    for p := 0 to |keys|
      invariant candidates == Values(Merged(items))[..p]
    {
      PrefixSnoc(Values(Merged(items)), p);
      candidates := candidates + [merged[keys[p]]];
    }
    PrefixFull(candidates);
  }
}
