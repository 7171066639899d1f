/** Merging equal lines of a cafeteria order (app/ai/tools/cafeteria.py). Prices are whole cents. */
module CafeteriaItems {
  import opened Clock
  import opened Money
  import opened Wrappers

  datatype Item = Item(nome: string, variante: string, observacao: string, quantidade: nat,
                       precoUnitario: nat, precoTotal: nat, itemLabel: string, descricao: string)

  datatype Key = Key(nome: string, variante: string, observacao: string)

  function KeyOf(item: Item): Key {
    Key(Strip(item.nome), Strip(item.variante), Strip(item.observacao))
  }

  function Describe(quantidade: nat, itemLabel: string): string {
    Digits(quantidade) + "x " + itemLabel
  }

  // ---------------------------------------------------------------- what merging means

  /** Keys in the order of their first occurrence among the first `n` items. */
  function Keys(items: seq<Item>, n: nat): seq<Key>
    requires n <= |items|
  {
    if n == 0 then []
    else if KeyOf(items[n - 1]) in Keys(items, n - 1) then Keys(items, n - 1)
    else Keys(items, n - 1) + [KeyOf(items[n - 1])]
  }

  /** What is summed over the items of a line. */
  datatype Amount = Pieces | Cents

  function Of(item: Item, amount: Amount): nat {
    match amount case Pieces => item.quantidade case Cents => item.precoTotal
  }

  function Sum(items: seq<Item>, n: nat, key: Key, amount: Amount): nat
    requires n <= |items|
  {
    if n == 0 then 0
    else Sum(items, n - 1, key, amount) + if KeyOf(items[n - 1]) == key then Of(items[n - 1], amount) else 0
  }

  function Quantity(items: seq<Item>, n: nat, key: Key): nat
    requires n <= |items|
  {
    Sum(items, n, key, Pieces)
  }

  function Price(items: seq<Item>, n: nat, key: Key): nat
    requires n <= |items|
  {
    Sum(items, n, key, Cents)
  }

  function Total(items: seq<Item>, n: nat, amount: Amount): nat
    requires n <= |items|
  {
    if n == 0 then 0 else Total(items, n - 1, amount) + Of(items[n - 1], amount)
  }

  /** The first of the `n` items with a key that occurs among them. */
  function First(items: seq<Item>, n: nat, key: Key): nat
    requires n <= |items|
  {
    if n == 0 then 0 else if key in Keys(items, n - 1) then First(items, n - 1, key) else n - 1
  }

  /** A line without what merging changes. */
  function Bare(item: Item): Item {
    item.(quantidade := 0, precoTotal := 0, descricao := "")
  }

  function Occurrences(items: seq<Item>, n: nat, key: Key): nat
    requires n <= |items|
  {
    if n == 0 then 0 else Occurrences(items, n - 1, key) + if KeyOf(items[n - 1]) == key then 1 else 0
  }

  /** A line made of several items gets a new description. */
  function Description(items: seq<Item>, n: nat, line: Item): string
    requires n <= |items| && First(items, n, KeyOf(line)) < n
  {
    if Occurrences(items, n, KeyOf(line)) == 1 then items[First(items, n, KeyOf(line))].descricao
    else Describe(line.quantidade, line.itemLabel)
  }

  /** The line of a key: the sums over its items and otherwise the fields of the first one. */
  ghost predicate LineFor(items: seq<Item>, n: nat, key: Key, line: Item)
    requires n <= |items|
  {
    && KeyOf(line) == key
    && line.quantidade == Quantity(items, n, key)
    && line.precoTotal == Price(items, n, key)
    && First(items, n, key) < n && Bare(line) == Bare(items[First(items, n, key)])
    && line.descricao == Description(items, n, line)
  }

  /** One line per key, in the order of first occurrence. */
  ghost predicate IsMerge(items: seq<Item>, n: nat, merged: seq<Item>)
    requires n <= |items|
  {
    |merged| == |Keys(items, n)| && forall j :: 0 <= j < |merged| ==> LineFor(items, n, Keys(items, n)[j], merged[j])
  }

  ghost predicate DistinctKeys(items: seq<Item>) {
    forall i, j :: 0 <= i < j < |items| ==> KeyOf(items[i]) != KeyOf(items[j])
  }

  lemma {:induction false} KeysFacts(items: seq<Item>, n: nat)
    requires n <= |items|
    ensures forall i, j :: 0 <= i < j < |Keys(items, n)| ==> Keys(items, n)[i] != Keys(items, n)[j]
    ensures forall key :: key in Keys(items, n) <==> exists i :: 0 <= i < n && KeyOf(items[i]) == key
  {
    if n > 0 { KeysFacts(items, n - 1); }
  }

  lemma {:induction false} AbsentKey(items: seq<Item>, n: nat, key: Key)
    requires n <= |items| && key !in Keys(items, n)
    ensures Quantity(items, n, key) == 0 && Price(items, n, key) == 0 && Occurrences(items, n, key) == 0
  {
    if n > 0 { AbsentKey(items, n - 1, key); }
  }

  lemma {:induction false} PresentKey(items: seq<Item>, n: nat, key: Key)
    requires n <= |items| && key in Keys(items, n)
    ensures Occurrences(items, n, key) > 0
  {
    if n > 0 && key in Keys(items, n - 1) { PresentKey(items, n - 1, key); }
  }

  // ---------------------------------------------------------------- the loop

  /** The index remembers where the line of each key is. */
  ghost predicate Indexed(merged: seq<Item>, indexByKey: map<Key, nat>) {
    && (forall j :: 0 <= j < |merged| ==> KeyOf(merged[j]) in indexByKey && indexByKey[KeyOf(merged[j])] == j)
    && (forall key :: key in indexByKey ==> indexByKey[key] < |merged| && KeyOf(merged[indexByKey[key]]) == key)
  }

  lemma {:induction false} OtherLine(items: seq<Item>, n: nat, key: Key, line: Item)
    requires n < |items| && key in Keys(items, n) && LineFor(items, n, key, line) && KeyOf(items[n]) != key
    ensures LineFor(items, n + 1, key, line)
  {
  }

  lemma {:induction false} NewLine(items: seq<Item>, n: nat)
    requires n < |items| && KeyOf(items[n]) !in Keys(items, n)
    ensures LineFor(items, n + 1, KeyOf(items[n]), items[n])
  {
    AbsentKey(items, n, KeyOf(items[n]));
  }

  /** The update of a line that takes in one more item of its key. */
  function WithItem(current: Item, item: Item): Item {
    current.(quantidade := current.quantidade + item.quantidade,
             precoTotal := current.precoTotal + item.precoTotal,
             descricao := Describe(current.quantidade + item.quantidade, current.itemLabel))
  }

  lemma {:induction false} SumLine(items: seq<Item>, n: nat, current: Item, line: Item)
    requires n < |items| && KeyOf(items[n]) in Keys(items, n) && LineFor(items, n, KeyOf(items[n]), current)
    requires line == WithItem(current, items[n])
    ensures LineFor(items, n + 1, KeyOf(items[n]), line)
  {
    PresentKey(items, n, KeyOf(items[n]));
  }

  lemma {:induction false} IndexIsKeys(items: seq<Item>, n: nat, merged: seq<Item>, indexByKey: map<Key, nat>, key: Key)
    requires n <= |items| && IsMerge(items, n, merged) && Indexed(merged, indexByKey)
    ensures key in indexByKey <==> key in Keys(items, n)
    ensures key in indexByKey ==> Keys(items, n)[indexByKey[key]] == key
    ensures forall j :: 0 <= j < |merged| ==> KeyOf(merged[j]) == Keys(items, n)[j]
  {
  }

  lemma {:induction false} AppendLine(items: seq<Item>, n: nat, merged: seq<Item>, indexByKey: map<Key, nat>)
    requires n < |items| && IsMerge(items, n, merged) && Indexed(merged, indexByKey) && KeyOf(items[n]) !in indexByKey
    ensures IsMerge(items, n + 1, merged + [items[n]])
  {
    var more := merged + [items[n]];
    IndexIsKeys(items, n, merged, indexByKey, KeyOf(items[n]));
    NewLine(items, n);
    forall j | 0 <= j < |more| ensures LineFor(items, n + 1, Keys(items, n + 1)[j], more[j]) {
      if j < |merged| { OtherLine(items, n, Keys(items, n)[j], merged[j]); }
    }
  }

  lemma {:induction false} AddToLine(items: seq<Item>, n: nat, merged: seq<Item>, indexByKey: map<Key, nat>, line: Item)
    requires n < |items| && IsMerge(items, n, merged) && Indexed(merged, indexByKey) && KeyOf(items[n]) in indexByKey
    requires line == WithItem(merged[indexByKey[KeyOf(items[n])]], items[n])
    ensures IsMerge(items, n + 1, merged[indexByKey[KeyOf(items[n])] := line])
  {
    var more := merged[indexByKey[KeyOf(items[n])] := line];
    var at := indexByKey[KeyOf(items[n])];
    IndexIsKeys(items, n, merged, indexByKey, KeyOf(items[n]));
    SumLine(items, n, merged[at], line);
    KeysFacts(items, n);
    assert Keys(items, n + 1) == Keys(items, n);
    forall j | 0 <= j < |more| ensures LineFor(items, n + 1, Keys(items, n + 1)[j], more[j]) {
      if j != at { OtherLine(items, n, Keys(items, n)[j], merged[j]); }
    }
  }

  lemma {:induction false} NewIndex(merged: seq<Item>, indexByKey: map<Key, nat>, item: Item)
    requires Indexed(merged, indexByKey) && KeyOf(item) !in indexByKey
    ensures Indexed(merged + [item], indexByKey[KeyOf(item) := |merged|])
  {
  }

  lemma {:induction false} SameIndex(merged: seq<Item>, indexByKey: map<Key, nat>, at: nat, line: Item)
    requires Indexed(merged, indexByKey) && at < |merged| && KeyOf(line) == KeyOf(merged[at])
    ensures Indexed(merged[at := line], indexByKey)
  {
  }

  /** Where the loop stands after `n` items. */
  ghost predicate Scanned(items: seq<Item>, n: nat, merged: seq<Item>, indexByKey: map<Key, nat>) {
    n <= |items| && IsMerge(items, n, merged) && Indexed(merged, indexByKey)
  }

  lemma {:induction false} FirstOfKey(items: seq<Item>, n: nat, merged: seq<Item>, indexByKey: map<Key, nat>)
    requires n < |items| && Scanned(items, n, merged, indexByKey) && KeyOf(items[n]) !in indexByKey
    ensures Scanned(items, n + 1, merged + [items[n]], indexByKey[KeyOf(items[n]) := |merged|])
  {
    AppendLine(items, n, merged, indexByKey);
    NewIndex(merged, indexByKey, items[n]);
  }

  lemma {:induction false} AgainOfKey(items: seq<Item>, n: nat, merged: seq<Item>, indexByKey: map<Key, nat>, at: nat)
    requires n < |items| && Scanned(items, n, merged, indexByKey)
    requires KeyOf(items[n]) in indexByKey && at == indexByKey[KeyOf(items[n])]
    ensures at < |merged| && Scanned(items, n + 1, merged[at := WithItem(merged[at], items[n])], indexByKey)
  {
    AddToLine(items, n, merged, indexByKey, WithItem(merged[at], items[n]));
    SameIndex(merged, indexByKey, at, WithItem(merged[at], items[n]));
  }

  /** The loop over the validated items: first occurrences are copied, later ones added. */
  method MergeValidatedItems(items: seq<Item>) returns (merged: seq<Item>)
    ensures IsMerge(items, |items|, merged)
  {
    merged := [];
    var indexByKey: map<Key, nat> := map[];
    for i := 0 to |items|
      invariant Scanned(items, i, merged, indexByKey)
    {
      var item := items[i];
      var key := KeyOf(item);
      if key !in indexByKey {
        FirstOfKey(items, i, merged, indexByKey);
        indexByKey := indexByKey[key := |merged|];
        merged := merged + [item];
        continue;
      }
      var at := indexByKey[key];
      AgainOfKey(items, i, merged, indexByKey, at);
      merged := merged[at := WithItem(merged[at], item)];
    }
  }

  // ---------------------------------------------------------------- conservation

  /** The sums of the first `m` keys. */
  function SumOfKeys(items: seq<Item>, n: nat, keys: seq<Key>, m: nat, amount: Amount): nat
    requires n <= |items| && m <= |keys|
  {
    if m == 0 then 0 else SumOfKeys(items, n, keys, m - 1, amount) + Sum(items, n, keys[m - 1], amount)
  }

  lemma {:induction false} OneMoreItem(items: seq<Item>, n: nat, keys: seq<Key>, m: nat, amount: Amount)
    requires 0 < n <= |items| && m <= |keys| && forall i, j :: 0 <= i < j < |keys| ==> keys[i] != keys[j]
    ensures SumOfKeys(items, n, keys, m, amount) == SumOfKeys(items, n - 1, keys, m, amount) +
      if KeyOf(items[n - 1]) in keys[..m] then Of(items[n - 1], amount) else 0
  {
    if m > 0 {
      OneMoreItem(items, n, keys, m - 1, amount);
      assert keys[..m] == keys[..m - 1] + [keys[m - 1]];
    }
  }

  lemma {:induction false} SumsConserved(items: seq<Item>, n: nat, amount: Amount)
    requires n <= |items|
    ensures SumOfKeys(items, n, Keys(items, n), |Keys(items, n)|, amount) == Total(items, n, amount)
  {
    if n > 0 {
      var before, keys := Keys(items, n - 1), Keys(items, n);
      SumsConserved(items, n - 1, amount);
      KeysDistinct(items, n);
      OneMoreItem(items, n, keys, |keys|, amount);
      assert keys[..|keys|] == keys;
      assert KeyOf(items[n - 1]) in keys;
      if keys != before {
        AbsentKey(items, n - 1, KeyOf(items[n - 1]));
        SameKeys(items, n - 1, before, keys, |before|, amount);
      }
    }
  }

  lemma {:induction false} KeysDistinct(items: seq<Item>, n: nat)
    requires n <= |items|
    ensures forall i, j :: 0 <= i < j < |Keys(items, n)| ==> Keys(items, n)[i] != Keys(items, n)[j]
  {
    KeysFacts(items, n);
  }

  lemma {:induction false} SameKeys(items: seq<Item>, n: nat, a: seq<Key>, b: seq<Key>, m: nat, amount: Amount)
    requires n <= |items| && m <= |a| <= |b| && a <= b
    ensures SumOfKeys(items, n, a, m, amount) == SumOfKeys(items, n, b, m, amount)
  {
    if m > 0 { SameKeys(items, n, a, b, m - 1, amount); }
  }

  lemma {:induction false} TotalByKey(items: seq<Item>, n: nat, merged: seq<Item>, m: nat, amount: Amount)
    requires n <= |items| && IsMerge(items, n, merged) && m <= |merged|
    ensures Total(merged, m, amount) == SumOfKeys(items, n, Keys(items, n), m, amount)
  {
    if m > 0 { TotalByKey(items, n, merged, m - 1, amount); }
  }

  /** Merging loses nothing: the subtotal that is charged, and the number of pieces, are the sums of
      the original lines. */
  lemma {:induction false} SubtotalConserved(items: seq<Item>, merged: seq<Item>, amount: Amount)
    requires IsMerge(items, |items|, merged)
    ensures Total(merged, |merged|, amount) == Total(items, |items|, amount)
  {
    TotalByKey(items, |items|, merged, |merged|, amount);
    SumsConserved(items, |items|, amount);
  }

  /** A merge has one line per key. */
  lemma {:induction false} MergeIsDistinct(items: seq<Item>, merged: seq<Item>)
    requires IsMerge(items, |items|, merged)
    ensures DistinctKeys(merged)
  {
    KeysFacts(items, |items|);
  }

  /** Name, variant and remark alike up to blanks at the ends; nothing else matters. */
  predicate SameArticle(a: Item, b: Item) {
    Strip(a.nome) == Strip(b.nome) && Strip(a.variante) == Strip(b.variante)
    && Strip(a.observacao) == Strip(b.observacao)
  }

  /** Each item goes into the one line of its article. */
  lemma {:induction false} LineOfItem(items: seq<Item>, merged: seq<Item>, i: nat) returns (line: nat)
    requires IsMerge(items, |items|, merged) && i < |items|
    ensures line < |merged|
    ensures forall l :: 0 <= l < |merged| ==> (SameArticle(merged[l], items[i]) <==> l == line)
  {
    KeysFacts(items, |items|);
    var keys := Keys(items, |items|);
    assert KeyOf(items[i]) in keys;
    var at :| 0 <= at < |keys| && keys[at] == KeyOf(items[i]);
    line := at;
    forall l | 0 <= l < |merged| ensures SameArticle(merged[l], items[i]) <==> l == line {
      assert LineFor(items, |items|, keys[l], merged[l]);
    }
  }

  lemma {:induction false} DistinctAlone(items: seq<Item>, n: nat)
    requires n <= |items| && DistinctKeys(items)
    ensures |Keys(items, n)| == n
    ensures forall j :: 0 <= j < n ==> Keys(items, n)[j] == KeyOf(items[j])
  {
    if n > 0 {
      DistinctAlone(items, n - 1);
      KeysFacts(items, n - 1);
    }
  }

  lemma {:induction false} DistinctSums(items: seq<Item>, n: nat, j: nat)
    requires j < n <= |items| && DistinctKeys(items)
    ensures Quantity(items, n, KeyOf(items[j])) == items[j].quantidade
    ensures Price(items, n, KeyOf(items[j])) == items[j].precoTotal
    ensures Occurrences(items, n, KeyOf(items[j])) == 1 && First(items, n, KeyOf(items[j])) == j
  {
    KeysFacts(items, n - 1);
    if j == n - 1 { AbsentKey(items, n - 1, KeyOf(items[j])); } else { DistinctSums(items, n - 1, j); }
  }

  /** Merging lines that are already distinct, and so merging again, changes nothing at all. */
  lemma {:induction false} MergeOfDistinct(items: seq<Item>, merged: seq<Item>)
    requires IsMerge(items, |items|, merged) && DistinctKeys(items)
    ensures merged == items
  {
    DistinctAlone(items, |items|);
    forall j | 0 <= j < |items| ensures merged[j] == items[j] {
      DistinctSums(items, |items|, j);
      assert LineFor(items, |items|, KeyOf(items[j]), merged[j]);
      assert Bare(merged[j]) == Bare(items[j]);
      assert merged[j] == Bare(merged[j]).(quantidade := merged[j].quantidade, precoTotal := merged[j].precoTotal,
                                           descricao := merged[j].descricao);
    }
  }
}
