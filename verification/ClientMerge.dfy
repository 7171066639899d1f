/** The least element of a set of ids, as `MIN(id)` gives it. */
module LeastId {
  lemma {:induction false} SomeElement<T>(s: set<T>) returns (x: T)
    requires s != {}
    ensures x in s
  {
    x :| x in s;
  }

  lemma {:induction false} LeastExists(s: set<int>) returns (m: int)
    requires s != {}
    ensures m in s && forall x :: x in s ==> m <= x
    decreases |s|
  {
    var x := SomeElement(s);
    var rest := s - {x};
    m := x;
    if rest != {} {
      var least := LeastExists(rest);
      if least < x { m := least; }
    }
    forall y | y in s ensures m <= y {
      assert y == x || y in rest;
    }
  }

  function Least(s: set<int>): (m: int)
    requires |s| > 0
    ensures m in s && forall x :: x in s ==> m <= x
  {
    assert exists m :: m in s && forall x :: x in s ==> m <= x by {
      var least := LeastExists(s);
    }
    var m :| m in s && forall x :: x in s ==> m <= x;
    m
  }
}

/** Merging clients that share a phone (app/models/clientes.py, `_dedupe_clientes_por_telefone`). */
module ClientMerge {
  import opened LeastId

  type ClientId = int
  type RowId = int

  datatype Client = Client(nome: string, telefone: string)

  datatype Child = Encomendas | Atendimentos | PedidosCafeteria | CustomerProcesses

  /** A child row's reference; it may be NULL, and it may dangle. */
  datatype Ref = Null | To(id: ClientId)

  type Clients = map<ClientId, Client>

  type Children = map<Child, map<RowId, Ref>>

  /** `COALESCE(TRIM(telefone), '') = ''` */
  predicate Blank(telefone: string) {
    forall c :: c in telefone ==> c == ' '
  }

  function IdsOf(c: Clients, telefone: string): set<ClientId> {
    set id | id in c && c[id].telefone == telefone
  }

  /** Where a client's references belong: to the smallest id of its phone. */
  function Canonical(c: Clients, id: ClientId): ClientId {
    if id in c && !Blank(c[id].telefone) then
      assert id in IdsOf(c, c[id].telefone);
      Least(IdsOf(c, c[id].telefone))
    else id
  }

  function Merged(c: Clients): Clients {
    map id | id in c && Canonical(c, id) == id :: c[id]
  }

  function Repoint(c: Clients, r: Ref): Ref {
    match r case Null => Null case To(id) => To(Canonical(c, id))
  }

  function Repointed(c: Clients, ch: Children): Children {
    map t | t in ch :: map r | r in ch[t] :: Repoint(c, ch[t][r])
  }

  // ---------------------------------------------------------------- what the merge means

  /** SQL's `TRIM`, which takes off spaces only. */
  function Trim(s: string): string {
    if s != "" && s[0] == ' ' then Trim(s[1..])
    else if s != "" && s[|s| - 1] == ' ' then Trim(s[..|s| - 1])
    else s
  }

  /** The phones that the query leaves out are those with nothing but spaces. */
  lemma {:induction false} BlankIff(telefone: string)
    ensures Blank(telefone) <==> Trim(telefone) == ""
    decreases |telefone|
  {
    if telefone != "" && telefone[0] == ' ' {
      assert forall c :: c in telefone <==> c == ' ' || c in telefone[1..];
      BlankIff(telefone[1..]);
    } else if telefone != "" && telefone[|telefone| - 1] == ' ' {
      var front := telefone[..|telefone| - 1];
      assert telefone == front + [' '];
      assert forall c :: c in telefone <==> c == ' ' || c in front;
      BlankIff(telefone[..|telefone| - 1]);
    } else if telefone != "" {
      assert telefone[0] in telefone;
    }
  }

  /** The clients that stay, unchanged: those with a blank phone and the smallest id of each other. */
  lemma {:induction false} MergedIff(c: Clients, id: ClientId)
    ensures id in Merged(c) <==>
      id in c
      && (Trim(c[id].telefone) == "" || forall o :: o in c && c[o].telefone == c[id].telefone ==> id <= o)
    ensures id in Merged(c) ==> Merged(c)[id] == c[id]
  {
    if id in c {
      BlankIff(c[id].telefone);
      assert forall o :: o in IdsOf(c, c[id].telefone) <==> o in c && c[o].telefone == c[id].telefone;
    }
  }

  /** No child row is lost or invented, and each one still belongs to whom it belonged: to nobody,
      to the same missing or blank client, or to the client kept for the same phone. */
  lemma {:induction false} EveryRowKept(c: Clients, ch: Children, t: Child, row: RowId)
    ensures Repointed(c, ch).Keys == ch.Keys
    ensures t in ch ==> Repointed(c, ch)[t].Keys == ch[t].Keys
    ensures t in ch && row in ch[t] ==>
      var (was, now) := (ch[t][row], Repointed(c, ch)[t][row]);
      && (was.Null? || was.id !in c || Trim(c[was.id].telefone) == "" ==> now == was)
      && (was.To? && was.id in c ==>
            now.To? && now.id in Merged(c) && c[now.id].telefone == c[was.id].telefone)
  {
    if t in ch && row in ch[t] && ch[t][row].To? && ch[t][row].id in c {
      BlankIff(c[ch[t][row].id].telefone);
      ReferencesKeepPhone(c, ch[t][row]);
    }
  }

  /** The row kept for a phone is its smallest id, and it is the only one. */
  lemma {:induction false} OneRowPerPhone(c: Clients, id: ClientId)
    requires id in c && !Blank(c[id].telefone)
    ensures Canonical(c, id) in Merged(c) && Merged(c)[Canonical(c, id)] == c[Canonical(c, id)]
    ensures IdsOf(Merged(c), c[id].telefone) == {Canonical(c, id)}
    ensures forall other :: other in IdsOf(c, c[id].telefone) ==> Canonical(c, id) <= other
  {
  }

  /** Every reference to an existing client still leads to an existing client with the same
      phone; dangling and empty references stay as they are. */
  lemma {:induction false} ReferencesKeepPhone(c: Clients, r: Ref)
    ensures r.To? && r.id in c ==>
      Repoint(c, r).id in Merged(c) && Merged(c)[Repoint(c, r).id].telefone == c[r.id].telefone
    ensures r.Null? || r.id !in c ==> Repoint(c, r) == r
  {
  }

  /** Rows with a blank phone or a phone of their own are untouched. */
  lemma {:induction false} OthersUntouched(c: Clients, id: ClientId)
    requires id in c && (Blank(c[id].telefone) || IdsOf(c, c[id].telefone) == {id})
    ensures id in Merged(c) && Merged(c)[id] == c[id] && Canonical(c, id) == id
  {
  }

  /** A second run changes nothing. */
  lemma {:induction false} MergeIdempotent(c: Clients, ch: Children)
    ensures Merged(Merged(c)) == Merged(c)
    ensures Repointed(Merged(c), Repointed(c, ch)) == Repointed(c, ch)
  {
    forall id | id in Merged(c) ensures Canonical(Merged(c), id) == id {
      if !Blank(c[id].telefone) { OneRowPerPhone(c, id); }
    }
    var once := Repointed(c, ch);
    forall t | t in ch ensures Repointed(Merged(c), once)[t] == once[t] {
      forall r | r in ch[t] ensures Repoint(Merged(c), once[t][r]) == once[t][r] {
        RepointTwice(c, ch[t][r]);
      }
    }
  }

  lemma {:induction false} RepointTwice(c: Clients, r: Ref)
    ensures Repoint(Merged(c), Repoint(c, r)) == Repoint(c, r)
  {
  }

  // ---------------------------------------------------------------- the run over the groups

  /** The phones of the query: not blank, and more than one row. */
  function DuplicatePhones(c: Clients): set<string> {
    set id | id in c && !Blank(c[id].telefone) && IdsOf(c, c[id].telefone) != {id} :: c[id].telefone
  }

  /** The canonical id once the groups in `done` are merged. */
  function Settled(c: Clients, done: set<string>, id: ClientId): ClientId {
    if id in c && c[id].telefone in done then Canonical(c, id) else id
  }

  function SettledClients(c: Clients, done: set<string>): Clients {
    map id | id in c && Settled(c, done, id) == id :: c[id]
  }

  function SettledRef(c: Clients, done: set<string>, r: Ref): Ref {
    match r case Null => Null case To(id) => To(Settled(c, done, id))
  }

  function SettledRows(c: Clients, done: set<string>, rows: map<RowId, Ref>): map<RowId, Ref> {
    map r | r in rows :: SettledRef(c, done, rows[r])
  }

  lemma {:induction false} AllSettled(c: Clients, id: ClientId)
    ensures Settled(c, DuplicatePhones(c), id) == Canonical(c, id)
  {
  }

  /** Merging one more group: exactly its duplicates move to its smallest id. */
  lemma {:induction false} SettleOne(c: Clients, done: set<string>, phone: string, id: ClientId)
    requires phone in DuplicatePhones(c) && phone !in done
    ensures var ids := IdsOf(c, phone);
      && |ids| > 0
      && Settled(c, done + {phone}, id) ==
           (if Settled(c, done, id) in ids - {Least(ids)} then Least(ids) else Settled(c, done, id))
      && (id in ids ==> Settled(c, done, id) == id)
      && (Settled(c, done, id) in ids ==> id in ids)
  {
  }

  /** `UPDATE ... SET cliente_id = canonical WHERE cliente_id IN (duplicates)` */
  function UpdateRows(rows: map<RowId, Ref>, canonical: ClientId, duplicates: set<ClientId>): map<RowId, Ref> {
    map r | r in rows :: if rows[r].To? && rows[r].id in duplicates then To(canonical) else rows[r]
  }

  lemma {:induction false} UpdateSettles(c: Clients, done: set<string>, phone: string, rows: map<RowId, Ref>)
    requires phone in DuplicatePhones(c) && phone !in done && |IdsOf(c, phone)| > 0
    ensures var ids := IdsOf(c, phone);
      UpdateRows(SettledRows(c, done, rows), Least(ids), ids - {Least(ids)}) == SettledRows(c, done + {phone}, rows)
  {
    var ids := IdsOf(c, phone);
    forall r | r in rows
      ensures UpdateRows(SettledRows(c, done, rows), Least(ids), ids - {Least(ids)})[r] ==
              SettledRef(c, done + {phone}, rows[r])
    {
      if rows[r].To? { SettleOne(c, done, phone, rows[r].id); }
    }
  }

  lemma {:induction false} DeleteSettles(c: Clients, done: set<string>, phone: string)
    requires phone in DuplicatePhones(c) && phone !in done && |IdsOf(c, phone)| > 0
    ensures var ids := IdsOf(c, phone);
      SettledClients(c, done) - (ids - {Least(ids)}) == SettledClients(c, done + {phone})
  {
  }

  function UpdateAll(ch: Children, canonical: ClientId, duplicates: set<ClientId>): Children {
    map t | t in ch :: UpdateRows(ch[t], canonical, duplicates)
  }

  function UpdateOne(ch: Children, table: Child, canonical: ClientId, duplicates: set<ClientId>): Children {
    if table in ch then ch[table := UpdateRows(ch[table], canonical, duplicates)] else ch
  }

  lemma {:induction false} EachTable(ch: Children, after: Children, canonical: ClientId, duplicates: set<ClientId>)
    requires var orders := UpdateOne(ch, Encomendas, canonical, duplicates);
      var attendances := UpdateOne(orders, Atendimentos, canonical, duplicates);
      var cafeteria := UpdateOne(attendances, PedidosCafeteria, canonical, duplicates);
      after == UpdateOne(cafeteria, CustomerProcesses, canonical, duplicates)
    ensures after == UpdateAll(ch, canonical, duplicates)
  {
    forall t ensures t in after <==> t in ch {
      match t case Encomendas => case Atendimentos => case PedidosCafeteria => case CustomerProcesses =>
    }
    forall t | t in ch ensures after[t] == UpdateRows(ch[t], canonical, duplicates) {
      match t case Encomendas => case Atendimentos => case PedidosCafeteria => case CustomerProcesses =>
    }
  }

  function SettledChildren(c: Clients, done: set<string>, ch: Children): Children {
    map t | t in ch :: SettledRows(c, done, ch[t])
  }

  lemma {:induction false} SettledFrom(c: Clients, ch: Children)
    ensures SettledClients(c, {}) == c && SettledChildren(c, {}, ch) == ch
    ensures SettledClients(c, DuplicatePhones(c)) == Merged(c)
    ensures SettledChildren(c, DuplicatePhones(c), ch) == Repointed(c, ch)
  {
    forall t | t in ch ensures SettledRows(c, {}, ch[t]) == ch[t] {
      forall r | r in ch[t] ensures SettledRef(c, {}, ch[t][r]) == ch[t][r] { }
    }
    forall id ensures Settled(c, DuplicatePhones(c), id) == Canonical(c, id) { AllSettled(c, id); }
    forall t | t in ch ensures SettledRows(c, DuplicatePhones(c), ch[t]) == Repointed(c, ch)[t] {
      forall r | r in ch[t] ensures SettledRef(c, DuplicatePhones(c), ch[t][r]) == Repoint(c, ch[t][r]) { }
    }
  }

  lemma {:induction false} GroupSettles(c: Clients, done: set<string>, phone: string, ch: Children)
    requires phone in DuplicatePhones(c) && phone !in done
    ensures var ids := IdsOf(c, phone);
      && |ids| > 0
      && SettledClients(c, done) - (ids - {Least(ids)}) == SettledClients(c, done + {phone})
      && UpdateAll(SettledChildren(c, done, ch), Least(ids), ids - {Least(ids)}) ==
         SettledChildren(c, done + {phone}, ch)
  {
    SettleOne(c, done, phone, 0);
    DeleteSettles(c, done, phone);
    forall t | t in ch { UpdateSettles(c, done, phone, ch[t]); }
  }

  class Database {
    var clientes: Clients
    // The child tables that exist.
    var children: Children

    /** `UPDATE ...` on a table, if it exists. */
    method UpdateTable(table: Child, canonical: ClientId, duplicates: set<ClientId>)
      modifies `children
      ensures children == if table in old(children)
        then old(children)[table := UpdateRows(old(children)[table], canonical, duplicates)] else old(children)
    {
      if table in children {
        children := children[table := UpdateRows(children[table], canonical, duplicates)];
      }
    }

    /** The updates and the delete of one group of duplicates. */
    method MergeGroup(canonical: ClientId, duplicates: set<ClientId>)
      modifies this
      ensures clientes == old(clientes) - duplicates
      ensures children == UpdateAll(old(children), canonical, duplicates)
    {
      UpdateTable(Encomendas, canonical, duplicates);
      UpdateTable(Atendimentos, canonical, duplicates);
      UpdateTable(PedidosCafeteria, canonical, duplicates);
      UpdateTable(CustomerProcesses, canonical, duplicates);
      EachTable(old(children), children, canonical, duplicates);
      clientes := clientes - duplicates;
    }

    /** All groups, in whatever order the query returns them. */
    method DedupeClientesPorTelefone()
      modifies this
      ensures clientes == Merged(old(clientes))
      ensures children == Repointed(old(clientes), old(children))
    {
      var rows := clientes;
      var groups := DuplicatePhones(rows);
      ghost var done: set<string> := {};
      SettledFrom(rows, children);
      while groups != {}
        invariant done !! groups && done + groups == DuplicatePhones(rows)
        invariant clientes == SettledClients(rows, done)
        invariant children == SettledChildren(rows, done, old(children))
      {
        var phone :| phone in groups;
        var ids := IdsOf(rows, phone);
        GroupSettles(rows, done, phone, old(children));
        MergeGroup(Least(ids), ids - {Least(ids)});
        groups, done := groups - {phone}, done + {phone};
      }
      assert done == DuplicatePhones(rows);
    }
  }
}
