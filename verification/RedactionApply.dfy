/** Applying a redaction manifest to a restored database, and the account it gives: what
    was masked and what was not, whichever statements fail. */
module RedactionApply {
  import opened Options

  datatype TableMask = TableMask(schema: string, table: string, kind: string)
  datatype ColumnMask = ColumnMask(schema: string, table: string, column: string, kind: string)
  datatype Manifest = Manifest(tables: seq<TableMask>, columns: seq<ColumnMask>)

  type Info = string
  datatype ColumnKey = ColumnKey(schema: string, table: string, column: string)
  type Infos = map<ColumnKey, Info>
  type Masker = (ColumnMask, Info) -> Option<string>

  datatype Assignment = Assignment(mask: ColumnMask, expr: string)

  datatype Statement =
    | CreateExtension
    | InitExtension
    | Truncate(schema: string, table: string)
    | Update(schema: string, table: string, sets: seq<Assignment>)

  datatype Outcome = Outcome(columnsAttempted: nat, columnsFailed: nat, tablesAttempted: nat, tablesFailed: nat)

  predicate IsPartial(o: Outcome) { o.columnsFailed > 0 || o.tablesFailed > 0 }

  datatype Reason = ExtensionMissing | InitFailed | LookupFailed
  datatype Result = Applied(outcome: Outcome) | Refused(why: Reason)

  /** The database: `answers` says which of the statements, in order, succeed, and `done`
      is those that did. */
  class Database {
    const answers: nat -> bool
    var issued: nat
    var done: seq<Statement>

    constructor (answers: nat -> bool)
      ensures this.answers == answers && issued == 0 && done == []
    {
      this.answers := answers;
      issued, done := 0, [];
    }

    method Query(stmt: Statement) returns (ok: bool)
      modifies this
      ensures ok == answers(old(issued)) && issued == old(issued) + 1
      ensures done == if ok then old(done) + [stmt] else old(done)
    {
      ok := answers(issued);
      issued := issued + 1;
      if ok { done := done + [stmt]; }
    }
  }

  // ----- What was wanted and what was done ------------------------------------------------

  /** The expression a column is to be set to; none where the restore lacks the column or
      its kind of mask does not fit. */
  function ExpressionFor(m: ColumnMask, infos: Infos, masker: Masker): Option<string> {
    var key := ColumnKey(m.schema, m.table, m.column);
    if key in infos then masker(m, infos[key]) else None
  }

  ghost function Wanted(columns: seq<ColumnMask>, infos: Infos, masker: Masker): multiset<Assignment> {
    if columns == [] then multiset{}
    else
      Wanted(columns[..|columns| - 1], infos, masker) + WantedOf(columns[|columns| - 1], infos, masker)
  }

  ghost function WantedOf(m: ColumnMask, infos: Infos, masker: Masker): multiset<Assignment> {
    match ExpressionFor(m, infos, masker)
    case Some(e) => multiset{Assignment(m, e)}
    case None => multiset{}
  }

  lemma WantedMore(columns: seq<ColumnMask>, i: nat, infos: Infos, masker: Masker)
    requires i < |columns|
    ensures Wanted(columns[..i + 1], infos, masker) == Wanted(columns[..i], infos, masker) + WantedOf(columns[i], infos, masker)
    ensures |Wanted(columns[..i + 1], infos, masker)| == |Wanted(columns[..i], infos, masker)| + |WantedOf(columns[i], infos, masker)|
  {
    assert columns[..i + 1][..i] == columns[..i];
  }

  ghost function WantedTruncates(tables: seq<TableMask>): multiset<Statement> {
    if tables == [] then multiset{}
    else
      WantedTruncates(tables[..|tables| - 1]) + WantedTruncate(tables[|tables| - 1])
  }

  ghost function WantedTruncate(t: TableMask): multiset<Statement> {
    if t.kind == "truncate" then multiset{Truncate(t.schema, t.table)} else multiset{}
  }

  /** Every column assignment that a successful statement made. */
  ghost function SetBy(done: seq<Statement>): multiset<Assignment> {
    if done == [] then multiset{}
    else
      var last := done[|done| - 1];
      SetBy(done[..|done| - 1]) + (if last.Update? then multiset(last.sets) else multiset{})
  }

  ghost function TruncatedBy(done: seq<Statement>): multiset<Statement> {
    if done == [] then multiset{}
    else
      var last := done[|done| - 1];
      TruncatedBy(done[..|done| - 1]) + (if last.Truncate? then multiset{last} else multiset{})
  }

  /** No statement sets a column of another table than its own. */
  predicate Aimed(s: Statement) {
    s.Update? ==> forall i :: 0 <= i < |s.sets| ==> s.sets[i].mask.schema == s.schema && s.sets[i].mask.table == s.table
  }

  predicate AllAimed(done: seq<Statement>) { forall i :: 0 <= i < |done| ==> Aimed(done[i]) }

  lemma OneMore(done: seq<Statement>, s: Statement)
    ensures SetBy(done + [s]) == SetBy(done) + (if s.Update? then multiset(s.sets) else multiset{})
    ensures TruncatedBy(done + [s]) == TruncatedBy(done) + (if s.Truncate? then multiset{s} else multiset{})
  {
    assert (done + [s])[..|done|] == done;
  }

  // ----- Grouping by table -----------------------------------------------------------------

  datatype Group = Group(schema: string, table: string, sets: seq<Assignment>)

  predicate OneGroupEach(groups: seq<Group>) {
    forall i, j :: 0 <= i < j < |groups| ==> groups[i].schema != groups[j].schema || groups[i].table != groups[j].table
  }

  predicate GroupAimed(g: Group) {
    forall i :: 0 <= i < |g.sets| ==> g.sets[i].mask.schema == g.schema && g.sets[i].mask.table == g.table
  }

  predicate Grouped(groups: seq<Group>) { OneGroupEach(groups) && forall i :: 0 <= i < |groups| ==> GroupAimed(groups[i]) }

  ghost function AllOf(groups: seq<Group>): multiset<Assignment> {
    if groups == [] then multiset{} else multiset(groups[0].sets) + AllOf(groups[1..])
  }

  lemma {:induction false} AllOfOneMore(groups: seq<Group>, i: nat, a: Assignment)
    requires i < |groups|
    ensures AllOf(groups[i := groups[i].(sets := groups[i].sets + [a])]) == AllOf(groups) + multiset{a}
    decreases |groups|
  {
    var more := groups[i := groups[i].(sets := groups[i].sets + [a])];
    if i == 0 {
      assert more[1..] == groups[1..];
    } else {
      assert more[1..] == groups[1..][i - 1 := groups[i].(sets := groups[i].sets + [a])];
      AllOfOneMore(groups[1..], i - 1, a);
    }
  }

  lemma {:induction false} AllOfAppend(groups: seq<Group>, g: Group)
    ensures AllOf(groups + [g]) == AllOf(groups) + multiset(g.sets)
  {
    if groups == [] {
      assert [g][1..] == [];
    } else {
      assert (groups + [g])[1..] == groups[1..] + [g];
      AllOfAppend(groups[1..], g);
    }
  }

  lemma GroupedMore(groups: seq<Group>, i: nat, a: Assignment)
    requires Grouped(groups) && i < |groups| && groups[i].schema == a.mask.schema && groups[i].table == a.mask.table
    ensures Grouped(groups[i := groups[i].(sets := groups[i].sets + [a])])
  {
    var more := groups[i].(sets := groups[i].sets + [a]);
    assert GroupAimed(groups[i]);
    assert GroupAimed(more);
  }

  lemma GroupedAppend(groups: seq<Group>, g: Group)
    requires Grouped(groups) && GroupAimed(g)
    requires forall j :: 0 <= j < |groups| ==> groups[j].schema != g.schema || groups[j].table != g.table
    ensures Grouped(groups + [g])
  { }

  /** An assignment goes to the group of its table, which is made if there is none. */
  method AddToGroup(groups: seq<Group>, a: Assignment) returns (r: seq<Group>)
    requires Grouped(groups)
    ensures Grouped(r)
    ensures AllOf(r) == AllOf(groups) + multiset{a}
  {
    var i := 0;
    while i < |groups| && (groups[i].schema != a.mask.schema || groups[i].table != a.mask.table)
      invariant 0 <= i <= |groups|
      invariant forall j :: 0 <= j < i ==> groups[j].schema != a.mask.schema || groups[j].table != a.mask.table
    {
      i := i + 1;
    }
    if i < |groups| {
      AllOfOneMore(groups, i, a);
      GroupedMore(groups, i, a);
      r := groups[i := groups[i].(sets := groups[i].sets + [a])];
    } else {
      var g := Group(a.mask.schema, a.mask.table, [a]);
      AllOfAppend(groups, g);
      GroupedAppend(groups, g);
      r := groups + [g];
    }
  }

  method GroupOne(groups: seq<Group>, mask: ColumnMask, infos: Infos, masker: Masker) returns (r: seq<Group>, failed: nat)
    requires Grouped(groups)
    ensures Grouped(r) && AllOf(r) == AllOf(groups) + WantedOf(mask, infos, masker)
    ensures |WantedOf(mask, infos, masker)| + failed == 1
  {
    var expr := ExpressionFor(mask, infos, masker);
    r, failed := groups, 1;
    if expr.Some? {
      r := AddToGroup(groups, Assignment(mask, expr.value));
      failed := 0;
    }
  }

  /** The first `i` columns are in their groups or counted as failed. */
  ghost predicate GroupedUpTo(groups: seq<Group>, failed: nat, columns: seq<ColumnMask>, i: nat, infos: Infos, masker: Masker) {
    && i <= |columns| && Grouped(groups) && AllOf(groups) == Wanted(columns[..i], infos, masker)
    && |Wanted(columns[..i], infos, masker)| + failed == i
  }

  method GroupNext(groups: seq<Group>, failed: nat, columns: seq<ColumnMask>, i: nat, infos: Infos, masker: Masker)
    returns (groups': seq<Group>, failed': nat)
    requires GroupedUpTo(groups, failed, columns, i, infos, masker) && i < |columns|
    ensures GroupedUpTo(groups', failed', columns, i + 1, infos, masker)
  {
    WantedMore(columns, i, infos, masker);
    var f;
    groups', f := GroupOne(groups, columns[i], infos, masker);
    failed' := failed + f;
  }

  /** Grouping by table loses and repeats no column; what it leaves out is counted. */
  method GroupByTable(columns: seq<ColumnMask>, infos: Infos, masker: Masker) returns (groups: seq<Group>, failed: nat)
    ensures Grouped(groups)
    ensures AllOf(groups) == Wanted(columns, infos, masker)
    ensures |Wanted(columns, infos, masker)| + failed == |columns|
  {
    groups, failed := [], 0;
    var i := 0;
    while i < |columns|
      invariant GroupedUpTo(groups, failed, columns, i, infos, masker)
    {
      groups, failed := GroupNext(groups, failed, columns, i, infos, masker);
      i := i + 1;
    }
    assert columns[..i] == columns;
  }

  // ----- The statements --------------------------------------------------------------------

  ghost function Sets(s: Statement, ok: bool): multiset<Assignment> { if ok && s.Update? then multiset(s.sets) else multiset{} }

  ghost function Truncates(s: Statement, ok: bool): multiset<Statement> { if ok && s.Truncate? then multiset{s} else multiset{} }

  /** A statement that succeeds has set and truncated what it says; one that fails, nothing. */
  method Issue(db: Database, s: Statement) returns (ok: bool)
    requires Aimed(s) && AllAimed(db.done)
    modifies db
    ensures AllAimed(db.done)
    ensures SetBy(db.done) == old(SetBy(db.done)) + Sets(s, ok)
    ensures TruncatedBy(db.done) == old(TruncatedBy(db.done)) + Truncates(s, ok)
    ensures ok == db.answers(old(db.issued)) && db.issued == old(db.issued) + 1
  {
    OneMore(db.done, s);
    ok := db.Query(s);
  }

  /** `got` of `wanted` came out done, and `failed` counts the rest. */
  ghost predicate Splits<T(!new)>(got: multiset<T>, wanted: multiset<T>, failed: nat, total: nat) {
    got <= wanted && |got| + failed == total
  }

  lemma AllOfMore(groups: seq<Group>, i: nat)
    requires i < |groups|
    ensures AllOf(groups[..i + 1]) == AllOf(groups[..i]) + multiset(groups[i].sets)
    ensures |AllOf(groups[..i + 1])| == |AllOf(groups[..i])| + |groups[i].sets|
  {
    assert groups[..i + 1] == groups[..i] + [groups[i]];
    AllOfAppend(groups[..i], groups[i]);
  }

  lemma SliceMore(s: seq<Assignment>, i: nat)
    requires i < |s|
    ensures multiset(s[..i + 1]) == multiset(s[..i]) + multiset{s[i]}
  {
    assert s[..i + 1] == s[..i] + [s[i]];
  }

  lemma SplitsAdd<T(!new)>(
    got: multiset<T>, wanted: multiset<T>, failed: nat, total: nat,
    got': multiset<T>, wanted': multiset<T>, failed': nat, total': nat)
    requires Splits(got, wanted, failed, total) && Splits(got', wanted', failed', total')
    ensures Splits(got + got', wanted + wanted', failed + failed', total + total')
  { }

  /** How many of the `n` statements from the `at`-th on fail. */
  ghost function Misses(answers: nat -> bool, at: nat, n: nat): nat {
    if n == 0 then 0 else Misses(answers, at, n - 1) + (if answers(at + n - 1) then 0 else 1)
  }

  /** How many statements the tables take, and how many of the tables fail: those of another
      kind of mask, and those whose statement fails. */
  ghost function Asked(tables: seq<TableMask>): nat {
    if tables == [] then 0 else Asked(tables[..|tables| - 1]) + (if tables[|tables| - 1].kind == "truncate" then 1 else 0)
  }

  ghost function TableMisses(answers: nat -> bool, at: nat, tables: seq<TableMask>): nat {
    if tables == [] then 0
    else
      var before, last := tables[..|tables| - 1], tables[|tables| - 1];
      TableMisses(answers, at, before) + (if last.kind == "truncate" && answers(at + Asked(before)) then 0 else 1)
  }

  /** Where the statements for the groups end, and how many columns they leave unset: a group's
      one statement sets all of them, or fails and is followed by one for each. */
  ghost function GroupsEnd(answers: nat -> bool, at: nat, groups: seq<Group>): nat {
    if groups == [] then at
    else
      var here := GroupsEnd(answers, at, groups[..|groups| - 1]);
      if answers(here) then here + 1 else here + 1 + |groups[|groups| - 1].sets|
  }

  ghost function GroupMisses(answers: nat -> bool, at: nat, groups: seq<Group>): nat {
    if groups == [] then 0
    else
      var before, last := groups[..|groups| - 1], groups[|groups| - 1];
      var here := GroupsEnd(answers, at, before);
      GroupMisses(answers, at, before) + (if answers(here) then 0 else Misses(answers, here + 1, |last.sets|))
  }

  lemma {:induction false} NoneMissed(answers: nat -> bool, at: nat, groups: seq<Group>)
    requires forall k: nat :: answers(k)
    ensures GroupMisses(answers, at, groups) == 0
    decreases |groups|
  {
    if groups != [] { NoneMissed(answers, at, groups[..|groups| - 1]); }
  }

  lemma {:induction false} NoTableMissed(answers: nat -> bool, at: nat, tables: seq<TableMask>)
    requires forall k: nat :: answers(k)
    ensures TableMisses(answers, at, tables) + |WantedTruncates(tables)| == |tables|
    decreases |tables|
  {
    if tables != [] { NoTableMissed(answers, at, tables[..|tables| - 1]); }
  }

  /** The first `i` assignments have been tried one by one, from the `at`-th statement on. */
  ghost predicate SetUpTo(
    before: multiset<Assignment>, now: multiset<Assignment>, got: multiset<Assignment>, sets: seq<Assignment>, i: nat,
    failed: nat, answers: nat -> bool, at: nat, issued: nat)
  {
    && i <= |sets| && now == before + got && Splits(got, multiset(sets[..i]), failed, i)
    && failed == Misses(answers, at, i) && issued == at + i
  }

  lemma SetOneMore(
    before: multiset<Assignment>, now: multiset<Assignment>, got: multiset<Assignment>, sets: seq<Assignment>, i: nat,
    failed: nat, answers: nat -> bool, at: nat, issued: nat, more: multiset<Assignment>, f: nat)
    requires SetUpTo(before, now, got, sets, i, failed, answers, at, issued) && i < |sets|
    requires Splits(more, multiset{sets[i]}, f, 1) && f == (if answers(issued) then 0 else 1)
    ensures SetUpTo(before, now + more, got + more, sets, i + 1, failed + f, answers, at, issued + 1)
  {
    SliceMore(sets, i);
    SplitsAdd(got, multiset(sets[..i]), failed, i, more, multiset{sets[i]}, f, 1);
    assert before + got + more == before + (got + more);
  }

  method SetOneByOne(db: Database, g: Group) returns (failed: nat, ghost got: multiset<Assignment>)
    requires GroupAimed(g) && AllAimed(db.done)
    modifies db
    ensures AllAimed(db.done) && TruncatedBy(db.done) == old(TruncatedBy(db.done))
    ensures SetBy(db.done) == old(SetBy(db.done)) + got && Splits(got, multiset(g.sets), failed, |g.sets|)
    ensures failed == Misses(db.answers, old(db.issued), |g.sets|) && db.issued == old(db.issued) + |g.sets|
  {
    failed, got := 0, multiset{};
    ghost var before, at := SetBy(db.done), db.issued;
    var i := 0;
    while i < |g.sets|
      invariant AllAimed(db.done) && TruncatedBy(db.done) == old(TruncatedBy(db.done))
      invariant SetUpTo(before, SetBy(db.done), got, g.sets, i, failed, db.answers, at, db.issued)
    {
      failed, got := SetNext(db, g, i, failed, got, before, at);
      i := i + 1;
    }
    assert g.sets[..i] == g.sets;
  }

  method SetNext(db: Database, g: Group, i: nat, failed: nat, ghost got: multiset<Assignment>, ghost before: multiset<Assignment>, ghost at: nat)
    returns (failed': nat, ghost got': multiset<Assignment>)
    requires GroupAimed(g) && AllAimed(db.done) && i < |g.sets|
    requires SetUpTo(before, SetBy(db.done), got, g.sets, i, failed, db.answers, at, db.issued)
    modifies db
    ensures AllAimed(db.done) && TruncatedBy(db.done) == old(TruncatedBy(db.done))
    ensures SetUpTo(before, SetBy(db.done), got', g.sets, i + 1, failed', db.answers, at, db.issued)
  {
    ghost var now, issued := SetBy(db.done), db.issued;
    var f;
    ghost var more;
    f, more := SetOne(db, g.schema, g.table, g.sets[i]);
    SetOneMore(before, now, got, g.sets, i, failed, db.answers, at, issued, more, f);
    failed', got' := failed + f, got + more;
  }

  method SetOne(db: Database, schema: string, table: string, a: Assignment) returns (failed: nat, ghost got: multiset<Assignment>)
    requires AllAimed(db.done) && a.mask.schema == schema && a.mask.table == table
    modifies db
    ensures AllAimed(db.done) && TruncatedBy(db.done) == old(TruncatedBy(db.done))
    ensures SetBy(db.done) == old(SetBy(db.done)) + got && Splits(got, multiset{a}, failed, 1)
    ensures failed == (if db.answers(old(db.issued)) then 0 else 1) && db.issued == old(db.issued) + 1
  {
    failed, got := 1, multiset{};
    var ok := Issue(db, Update(schema, table, [a]));
    if ok { failed, got := 0, multiset{a}; }
  }

  /** A table's columns in one statement, or if that fails one by one: what comes out set
      and what is answered as failed make up the group. */
  method ApplyTableMasks(db: Database, g: Group) returns (failed: nat, ghost got: multiset<Assignment>)
    requires GroupAimed(g) && AllAimed(db.done)
    modifies db
    ensures AllAimed(db.done) && TruncatedBy(db.done) == old(TruncatedBy(db.done))
    ensures SetBy(db.done) == old(SetBy(db.done)) + got && Splits(got, multiset(g.sets), failed, |g.sets|)
    ensures var at := old(db.issued);
      if db.answers(at) then failed == 0 && db.issued == at + 1
      else failed == Misses(db.answers, at + 1, |g.sets|) && db.issued == at + 1 + |g.sets|
  {
    var ok := Issue(db, Update(g.schema, g.table, g.sets));
    if ok {
      failed, got := 0, multiset(g.sets);
    } else {
      failed, got := SetOneByOne(db, g);
    }
  }

  /** The first `i` tables have been truncated or failed. */
  ghost predicate TruncatedUpTo(
    before: multiset<Statement>, now: multiset<Statement>, gone: multiset<Statement>, tables: seq<TableMask>, i: nat,
    failed: nat, answers: nat -> bool, at: nat, issued: nat)
  {
    && i <= |tables| && now == before + gone && Splits(gone, WantedTruncates(tables[..i]), failed, i)
    && failed == TableMisses(answers, at, tables[..i]) && issued == at + Asked(tables[..i])
  }

  lemma TruncateOneMore(
    before: multiset<Statement>, now: multiset<Statement>, gone: multiset<Statement>, tables: seq<TableMask>, i: nat,
    failed: nat, answers: nat -> bool, at: nat, issued: nat, more: multiset<Statement>, f: nat)
    requires TruncatedUpTo(before, now, gone, tables, i, failed, answers, at, issued) && i < |tables|
    requires Splits(more, WantedTruncate(tables[i]), f, 1)
    requires f == (if tables[i].kind == "truncate" && answers(issued) then 0 else 1)
    ensures TruncatedUpTo(before, now + more, gone + more, tables, i + 1, failed + f, answers, at,
                          issued + (if tables[i].kind == "truncate" then 1 else 0))
  {
    assert tables[..i + 1][..i] == tables[..i];
    SplitsAdd(gone, WantedTruncates(tables[..i]), failed, i, more, WantedTruncate(tables[i]), f, 1);
    assert before + gone + more == before + (gone + more);
  }

  method TruncateTables(db: Database, tables: seq<TableMask>) returns (failed: nat, ghost gone: multiset<Statement>)
    requires AllAimed(db.done)
    modifies db
    ensures AllAimed(db.done) && SetBy(db.done) == old(SetBy(db.done))
    ensures TruncatedBy(db.done) == old(TruncatedBy(db.done)) + gone
    ensures Splits(gone, WantedTruncates(tables), failed, |tables|)
    ensures failed == TableMisses(db.answers, old(db.issued), tables) && db.issued == old(db.issued) + Asked(tables)
  {
    failed, gone := 0, multiset{};
    ghost var before, at := TruncatedBy(db.done), db.issued;
    var i := 0;
    while i < |tables|
      invariant AllAimed(db.done) && SetBy(db.done) == old(SetBy(db.done))
      invariant TruncatedUpTo(before, TruncatedBy(db.done), gone, tables, i, failed, db.answers, at, db.issued)
    {
      ghost var now, issued := TruncatedBy(db.done), db.issued;
      var f;
      ghost var more;
      f, more := TruncateOne(db, tables[i]);
      TruncateOneMore(before, now, gone, tables, i, failed, db.answers, at, issued, more, f);
      gone, failed, i := gone + more, failed + f, i + 1;
    }
    assert tables[..i] == tables;
  }

  /** A table with a mask of another kind than truncation fails without a statement. */
  method TruncateOne(db: Database, t: TableMask) returns (failed: nat, ghost gone: multiset<Statement>)
    requires AllAimed(db.done)
    modifies db
    ensures AllAimed(db.done) && SetBy(db.done) == old(SetBy(db.done))
    ensures TruncatedBy(db.done) == old(TruncatedBy(db.done)) + gone && Splits(gone, WantedTruncate(t), failed, 1)
    ensures failed == (if t.kind == "truncate" && db.answers(old(db.issued)) then 0 else 1)
    ensures db.issued == old(db.issued) + (if t.kind == "truncate" then 1 else 0)
  {
    failed, gone := 1, multiset{};
    if t.kind == "truncate" {
      var ok := Issue(db, Truncate(t.schema, t.table));
      if ok { failed, gone := 0, multiset{Truncate(t.schema, t.table)}; }
    }
  }

  /** The first `i` groups have been updated. */
  ghost predicate UpdatedUpTo(
    before: multiset<Assignment>, now: multiset<Assignment>, got: multiset<Assignment>, groups: seq<Group>, i: nat,
    failed: nat, answers: nat -> bool, at: nat, issued: nat)
  {
    && i <= |groups| && now == before + got && Splits(got, AllOf(groups[..i]), failed, |AllOf(groups[..i])|)
    && failed == GroupMisses(answers, at, groups[..i]) && issued == GroupsEnd(answers, at, groups[..i])
  }

  lemma UpdateOneMore(
    before: multiset<Assignment>, now: multiset<Assignment>, got: multiset<Assignment>, groups: seq<Group>, i: nat,
    failed: nat, answers: nat -> bool, at: nat, issued: nat, more: multiset<Assignment>, f: nat)
    requires UpdatedUpTo(before, now, got, groups, i, failed, answers, at, issued) && i < |groups|
    requires Splits(more, multiset(groups[i].sets), f, |groups[i].sets|)
    requires f == (if answers(issued) then 0 else Misses(answers, issued + 1, |groups[i].sets|))
    ensures UpdatedUpTo(before, now + more, got + more, groups, i + 1, failed + f, answers, at,
                        if answers(issued) then issued + 1 else issued + 1 + |groups[i].sets|)
  {
    AllOfMore(groups, i);
    assert groups[..i + 1][..i] == groups[..i];
    SplitsAdd(got, AllOf(groups[..i]), failed, |AllOf(groups[..i])|, more, multiset(groups[i].sets), f, |groups[i].sets|);
    assert before + got + more == before + (got + more);
  }

  method UpdateTables(db: Database, groups: seq<Group>) returns (failed: nat, ghost got: multiset<Assignment>)
    requires Grouped(groups) && AllAimed(db.done)
    modifies db
    ensures AllAimed(db.done) && TruncatedBy(db.done) == old(TruncatedBy(db.done))
    ensures SetBy(db.done) == old(SetBy(db.done)) + got && Splits(got, AllOf(groups), failed, |AllOf(groups)|)
    ensures failed == GroupMisses(db.answers, old(db.issued), groups)
  {
    failed, got := 0, multiset{};
    ghost var before, at := SetBy(db.done), db.issued;
    var i := 0;
    while i < |groups|
      invariant AllAimed(db.done) && TruncatedBy(db.done) == old(TruncatedBy(db.done))
      invariant UpdatedUpTo(before, SetBy(db.done), got, groups, i, failed, db.answers, at, db.issued)
    {
      failed, got := UpdateNext(db, groups, i, failed, got, before, at);
      i := i + 1;
    }
    assert groups[..i] == groups;
  }

  method UpdateNext(db: Database, groups: seq<Group>, i: nat, failed: nat, ghost got: multiset<Assignment>, ghost before: multiset<Assignment>, ghost at: nat)
    returns (failed': nat, ghost got': multiset<Assignment>)
    requires Grouped(groups) && AllAimed(db.done) && i < |groups|
    requires UpdatedUpTo(before, SetBy(db.done), got, groups, i, failed, db.answers, at, db.issued)
    modifies db
    ensures AllAimed(db.done) && TruncatedBy(db.done) == old(TruncatedBy(db.done))
    ensures UpdatedUpTo(before, SetBy(db.done), got', groups, i + 1, failed', db.answers, at, db.issued)
  {
    ghost var now, issued := SetBy(db.done), db.issued;
    var f;
    ghost var more;
    f, more := ApplyTableMasks(db, groups[i]);
    UpdateOneMore(before, now, got, groups, i, failed, db.answers, at, issued, more, f);
    failed', got' := failed + f, got + more;
  }

  /** What a run that was not refused has done, against what the manifest asks. */
  ghost predicate Accounted(m: Manifest, infos: Infos, masker: Masker, o: Outcome, done: seq<Statement>) {
    && o.columnsAttempted == |m.columns| && o.tablesAttempted == |m.tables|
    && |SetBy(done)| + o.columnsFailed == |m.columns|
    && |TruncatedBy(done)| + o.tablesFailed == |m.tables|
    && SetBy(done) <= Wanted(m.columns, infos, masker)
    && TruncatedBy(done) <= WantedTruncates(m.tables)
    && AllAimed(done)
  }

  /** The whole run. `infos` is none where the columns could not be looked up. */
  method Apply(db: Database, m: Manifest, infos: Option<Infos>, masker: Masker) returns (r: Result)
    requires db.done == []
    modifies db
    ensures r.Applied? ==> infos.Some? && Accounted(m, infos.value, masker, r.outcome, db.done)
    ensures r == Refused(ExtensionMissing) <==> !db.answers(old(db.issued))
    ensures r == Refused(InitFailed) <==> db.answers(old(db.issued)) && !db.answers(old(db.issued) + 1)
    ensures r == Refused(LookupFailed) <==> db.answers(old(db.issued)) && db.answers(old(db.issued) + 1) && infos.None?
    ensures (forall k: nat :: db.answers(k)) && infos.Some? ==>
      && r.Applied? && r.outcome.columnsFailed + |Wanted(m.columns, infos.value, masker)| == |m.columns|
      && r.outcome.tablesFailed + |WantedTruncates(m.tables)| == |m.tables|
    ensures r.Refused? ==> SetBy(db.done) == multiset{} && TruncatedBy(db.done) <= WantedTruncates(m.tables)
  {
    OneMore([], CreateExtension);
    OneMore([CreateExtension], InitExtension);
    var ok := db.Query(CreateExtension);
    if !ok { return Refused(ExtensionMissing); }
    assert db.done == [CreateExtension];
    ok := db.Query(InitExtension);
    if !ok { return Refused(InitFailed); }
    assert db.done == [CreateExtension] + [InitExtension];
    ghost var at := db.issued;
    var tablesFailed, _ := TruncateTables(db, m.tables);
    if infos.None? { return Refused(LookupFailed); }
    var groups, skipped := GroupByTable(m.columns, infos.value, masker);
    ghost var then' := db.issued;
    var failed, _ := UpdateTables(db, groups);
    if forall k: nat :: db.answers(k) {
      NoTableMissed(db.answers, at, m.tables);
      NoneMissed(db.answers, then', groups);
    }
    r := Applied(Outcome(|m.columns|, skipped + failed, |m.tables|, tablesFailed));
  }

  // ----- What the account means ---------------------------------------------------------------

  lemma {:induction false} WantedSize(columns: seq<ColumnMask>, infos: Infos, masker: Masker)
    ensures |Wanted(columns, infos, masker)| <= |columns|
    ensures |Wanted(columns, infos, masker)| == |columns| ==>
      forall i :: 0 <= i < |columns| ==> ExpressionFor(columns[i], infos, masker).Some?
    decreases |columns|
  {
    if columns != [] { WantedSize(columns[..|columns| - 1], infos, masker); }
  }

  lemma {:induction false} WantedTruncatesSize(tables: seq<TableMask>)
    ensures |WantedTruncates(tables)| <= |tables|
    ensures |WantedTruncates(tables)| == |tables| ==> forall i :: 0 <= i < |tables| ==> tables[i].kind == "truncate"
    decreases |tables|
  {
    if tables != [] { WantedTruncatesSize(tables[..|tables| - 1]); }
  }

  lemma SubsetOfSameSize<T>(a: multiset<T>, b: multiset<T>)
    requires a <= b && |a| >= |b|
    ensures a == b
  {
    assert b == a + (b - a);
  }

  /** An outcome is not partial exactly when every column of the manifest was set to its
      mask, once for each time it is named, and every table truncated. */
  lemma NotPartialExactly(m: Manifest, infos: Infos, masker: Masker, o: Outcome, done: seq<Statement>)
    requires Accounted(m, infos, masker, o, done)
    ensures !IsPartial(o) <==>
      && SetBy(done) == Wanted(m.columns, infos, masker)
      && TruncatedBy(done) == WantedTruncates(m.tables)
      && (forall i :: 0 <= i < |m.columns| ==> ExpressionFor(m.columns[i], infos, masker).Some?)
      && (forall i :: 0 <= i < |m.tables| ==> m.tables[i].kind == "truncate")
  {
    WantedSize(m.columns, infos, masker);
    WantedTruncatesSize(m.tables);
    if !IsPartial(o) {
      SubsetOfSameSize(SetBy(done), Wanted(m.columns, infos, masker));
      SubsetOfSameSize(TruncatedBy(done), WantedTruncates(m.tables));
    } else {
      WantedFull(m.columns, infos, masker);
      WantedTruncatesFull(m.tables);
    }
  }

  lemma {:induction false} WantedFull(columns: seq<ColumnMask>, infos: Infos, masker: Masker)
    ensures (forall i :: 0 <= i < |columns| ==> ExpressionFor(columns[i], infos, masker).Some?) ==>
      |Wanted(columns, infos, masker)| == |columns|
    decreases |columns|
  {
    if columns != [] { WantedFull(columns[..|columns| - 1], infos, masker); }
  }

  lemma {:induction false} WantedTruncatesFull(tables: seq<TableMask>)
    ensures (forall i :: 0 <= i < |tables| ==> tables[i].kind == "truncate") ==> |WantedTruncates(tables)| == |tables|
    decreases |tables|
  {
    if tables != [] { WantedTruncatesFull(tables[..|tables| - 1]); }
  }
}
